/** The tenant searches and the USL gate (usl.go, lambda.go, immune.go).
    These are searches with early return, so they are functions. */
module Usl {
  import opened Types

  /** `contains` of the source: a linear search. */
  predicate Contains(list: seq<string>, v: string)
    ensures Contains(list, v) <==> v in list
  {
    list != [] && (list[0] == v || Contains(list[1..], v))
  }

  /** The first tenant with this id, or the length of the list. */
  function FindTenant(tenants: seq<TenantPolicy>, id: string): (k: nat)
    ensures k <= |tenants|
    ensures forall j :: 0 <= j < k ==> tenants[j].tenantID != id
    ensures k < |tenants| ==> tenants[k].tenantID == id
  {
    if tenants == [] then 0
    else if tenants[0].tenantID == id then 0
    else 1 + FindTenant(tenants[1..], id)
  }

  predicate CapabilityGranted(lattice: seq<Grant>, c: Capability, lane: string)
    ensures CapabilityGranted(lattice, c, lane) <==>
            exists g :: g in lattice && g.capability == c && lane in g.lanes
  {
    if lattice == [] then false
    else if lattice[0].capability == c && Contains(lattice[0].lanes, lane) then
      assert lattice[0] in lattice; true
    else CapabilityGranted(lattice[1..], c, lane)
  }

  predicate Allows(t: TenantPolicy, c: Capability) {
    && Contains(t.classes, c.cls)
    && (|t.scopes| == 0 || Contains(t.scopes, c.scope))
    && (|t.actions| == 0 || Contains(t.actions, c.action))
    && (|t.risks| == 0 || Contains(t.risks, c.risk))
  }

  datatype UslDecision = UslDecision(result: AdmitResult, reason: Reason, rule: RuleRef)

  /** `USLGate.Check`. */
  function UslCheck(enforced: bool, tenants: seq<TenantPolicy>, lattice: seq<Grant>, req: Request): UslDecision {
    if !enforced then UslDecision(Deny, GovernanceDisabled, Lambda7)
    else
      var k := FindTenant(tenants, req.tenantID);
      if k == |tenants| then UslDecision(Deny, UnknownTenant, Lambda4)
      else if tenants[k].lane != req.lane then UslDecision(Deny, LaneMismatch, Lambda4)
      else if !CapabilityGranted(lattice, req.capability, req.lane) then
        UslDecision(Deny, NotGranted, CapabilityLattice)
      else if !Allows(tenants[k], req.capability) then UslDecision(Deny, NotAllowedForTenant, TenantPolicyRule)
      else if req.operatorID == "" then UslDecision(Deny, OperatorRequired, Lambda6)
      else UslDecision(Admit, Admitted, UslGate)
  }

  /** Where the search of `checkLambda4` stops: the first tenant with this id and this lane. */
  function FindInLane(tenants: seq<TenantPolicy>, id: string, lane: string): (k: nat)
    ensures k <= |tenants|
    ensures forall j :: 0 <= j < k ==> !(tenants[j].tenantID == id && tenants[j].lane == lane)
    ensures k < |tenants| ==> tenants[k].tenantID == id && tenants[k].lane == lane
  {
    if tenants == [] then 0
    else if tenants[0].tenantID == id && tenants[0].lane == lane then 0
    else 1 + FindInLane(tenants[1..], id, lane)
  }

  datatype LambdaResult = LambdaResult(passed: bool, reason: Reason)

  /** `checkLambda4`: identity separation. */
  function CheckLambda4(req: Request, tenants: seq<TenantPolicy>): LambdaResult {
    var k := FindInLane(tenants, req.tenantID, req.lane);
    if k == |tenants| then LambdaResult(false, LaneMismatchOrUnknownTenant)
    else if tenants[k].sovereign != "" && tenants[k].sovereign != req.operatorID then LambdaResult(false, NotSovereign)
    else LambdaResult(true, LaneAligned)
  }

  /** `tenantSovereign`: the sovereign operator of the first tenant with this id. */
  function TenantSovereign(tenants: seq<TenantPolicy>, id: string): Option<string> {
    if tenants == [] then None
    else if tenants[0].tenantID == id then Some(tenants[0].sovereign)
    else TenantSovereign(tenants[1..], id)
  }

  datatype ImmuneDecision = ImmuneDecision(result: ImmuneClass, reason: Reason)

  /** `ImmuneProtocol.Classify`. */
  function Classify(req: Request): ImmuneDecision {
    if req.tenantID == "" then ImmuneDecision(Reject, ImmuneUnknownTenant)
    else if |req.payload| == 0 then ImmuneDecision(ImmuneQuarantine, EmptyPayload)
    else if req.lane == LANE_SAFE then ImmuneDecision(Allow, SafeLane)
    else if req.lane == LANE_NORMAL then ImmuneDecision(Clamp, NormalLane)
    else if req.lane == LANE_EXPRESS then ImmuneDecision(Reroute, ExpressLane)
    else ImmuneDecision(Reject, UnknownLane)
  }

  /** Classification followed by the sovereign operator's elevation of CLAMP and REROUTE. */
  function ImmuneVerdict(tenants: seq<TenantPolicy>, req: Request): ImmuneDecision {
    var d := Classify(req);
    if (d.result.Clamp? || d.result.Reroute?) && TenantSovereign(tenants, req.tenantID) == Some(req.operatorID) then
      ImmuneDecision(Allow, OperatorApproved(d.reason))
    else d
  }

  /** What the gate refuses, and why: it is closed when governance is not enforced, to tenants it does not know, outside
      the first such tenant's lane, for what the lattice does not grant or the tenant is not allowed, and without an
      operator, in this order. */
  lemma UslAnswers(enforced: bool, tenants: seq<TenantPolicy>, lattice: seq<Grant>, req: Request)
    ensures var d, k := UslCheck(enforced, tenants, lattice, req), FindTenant(tenants, req.tenantID);
            && (d.reason == GovernanceDisabled <==> !enforced)
            && (d.reason == UnknownTenant <==> enforced && forall t :: t in tenants ==> t.tenantID != req.tenantID)
            && (d.reason == OperatorRequired ==> req.operatorID == "")
            && (d.reason in {LaneMismatch, NotGranted, NotAllowedForTenant, OperatorRequired, Admitted} ==>
                  k < |tenants|)
            && (d.reason == LaneMismatch ==> tenants[k].lane != req.lane)
            && (d.reason == NotGranted ==>
                  forall g :: g in lattice && g.capability == req.capability ==> req.lane !in g.lanes)
            && d in {UslDecision(Deny, GovernanceDisabled, Lambda7), UslDecision(Deny, UnknownTenant, Lambda4),
                     UslDecision(Deny, LaneMismatch, Lambda4), UslDecision(Deny, NotGranted, CapabilityLattice),
                     UslDecision(Deny, NotAllowedForTenant, TenantPolicyRule),
                     UslDecision(Deny, OperatorRequired, Lambda6), UslDecision(Admit, Admitted, UslGate)}
            && (d.result == Admit ==>
                  && enforced && tenants[k].lane == req.lane && req.operatorID != ""
                  && Allows(tenants[k], req.capability) && CapabilityGranted(lattice, req.capability, req.lane))
  {
    var k := FindTenant(tenants, req.tenantID);
    if k < |tenants| {
      assert tenants[k] in tenants;
    }
  }

  lemma {:induction false} SovereignOfFound(tenants: seq<TenantPolicy>, id: string)
    ensures var k := FindTenant(tenants, id);
            TenantSovereign(tenants, id) == if k < |tenants| then Some(tenants[k].sovereign) else None
  {
    if tenants != [] && tenants[0].tenantID != id {
      SovereignOfFound(tenants[1..], id);
    }
  }

  lemma LaneSearchStopsToo(tenants: seq<TenantPolicy>, id: string, lane: string)
    requires var k := FindTenant(tenants, id); k < |tenants| && tenants[k].lane == lane
    ensures FindInLane(tenants, id, lane) == FindTenant(tenants, id)
  {
  }

  /** Three lookups, one tenant. For every tenant list, duplicates included: once identity separation
      and the USL gate both pass, all three searches stop at the same policy. */
  lemma ThreeLookupsOneTenant(tenants: seq<TenantPolicy>, lattice: seq<Grant>, req: Request)
    requires CheckLambda4(req, tenants).passed
    requires UslCheck(true, tenants, lattice, req).result == Admit
    ensures FindTenant(tenants, req.tenantID) < |tenants|
    ensures FindInLane(tenants, req.tenantID, req.lane) == FindTenant(tenants, req.tenantID)
    ensures TenantSovereign(tenants, req.tenantID) == Some(tenants[FindTenant(tenants, req.tenantID)].sovereign)
  {
    SovereignOfFound(tenants, req.tenantID);
    LaneSearchStopsToo(tenants, req.tenantID, req.lane);
  }

  /** So in the NORMAL and EXPRESS lanes a request with a payload that got this far is stopped by the
      immune step exactly when its tenant has no sovereign operator. */
  lemma QuarantinedIffNoSovereign(tenants: seq<TenantPolicy>, lattice: seq<Grant>, req: Request)
    requires CheckLambda4(req, tenants).passed
    requires UslCheck(true, tenants, lattice, req).result == Admit
    requires req.tenantID != "" && req.operatorID != "" && req.payload != ""
    requires req.lane == LANE_NORMAL || req.lane == LANE_EXPRESS
    ensures !ImmuneVerdict(tenants, req).result.Allow? <==>
            tenants[FindTenant(tenants, req.tenantID)].sovereign == ""
  {
    ThreeLookupsOneTenant(tenants, lattice, req);
    assert LANE_NORMAL[0] != LANE_SAFE[0] && LANE_EXPRESS[0] != LANE_SAFE[0];
  }
}
