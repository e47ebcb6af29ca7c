/** Admission in closed form: eighteen gates in a fixed order, and the verdict of the first that fails.

    The gates are stated over the request, the configuration and what the stores answer. Both the
    router object and the interleaved protocol are proved to decide as this table says.
  */
module Admission {
  import opened Types
  import opened Stores
  import opened Usl
  import opened Gre
  import opened Ledgers

  /** An adapter's answer to the capability question. */
  datatype Answer = Answer(ok: bool, why: string)

  /** How a bounded Generate ends. A result is known by its hash, a hex digest and so never empty. */
  datatype Generation = Generated(hash: Digest) | Failed(why: string) | TimedOut

  type Digest = s: string | s != "" witness "0"

  /** What one step takes from outside the router: clock, identifiers and the adapter. */
  datatype Ambient = Ambient(now: int, decisionID: string, replayID: string, answer: Answer, generation: Generation)

  /** What an admission may read beside the request: store contents for its intent, and its adapter's answer. */
  datatype World = World(
    ledgerOk: bool, terminated: bool, interrupted: bool, correction: Option<string>,
    drift: Option<real>, registered: bool, answer: Answer)

  /** Nothing stands against the request: a sound ledger, no orders, no steered drift, a willing provider. */
  const CALM := World(true, false, false, None, None, true, Answer(true, ""))

  /** A decision with the error it is returned with and the stage log it is ledgered with. */
  datatype Verdict = Verdict(result: AdmitResult, reason: Reason, rule: RuleRef, err: Error, log: seq<StageRecord>)

  /** The ledger draft of a verdict. */
  function VerdictDraft(req: Request, v: Verdict, a: Ambient): Entry {
    DecisionDraft(req, v.result == Admit, v.result, v.reason, v.rule, a.decisionID, v.log,
                  if v.rule == LedgerIntegrity then "replay-" + req.intentID else a.replayID)
  }

  /** The entry tells this verdict on this request. */
  ghost predicate Records(e: Entry, req: Request, v: Verdict) {
    && SameSubject(e, req) && (e.admitted <==> v.result == Admit) && e.executionHash == ""
    && e.result == v.result && e.reason == v.reason && e.rule == v.rule && e.stageLog == v.log
  }

  const ADMITTED := Verdict(Admit, Admitted, UslGate, NoError, PASSED)

  datatype Gate = Gate(ok: bool, refusal: Verdict)

  /** A stage of the pipeline refusing: the stages before it passed. */
  function StageRefusal(k: nat, reason: Reason, rule: RuleRef): Verdict
    requires k < 9
  {
    Verdict(Deny, reason, rule, NoError, PASSED[..k] + [StageRecord(STAGES[k], false, reason, rule)])
  }

  function ImmuneRefusal(reason: Reason): Verdict {
    Verdict(Quarantine, Immune(reason), ImmuneRule, NoError,
            PASSED + [StageRecord(ImmuneStage, false, reason, ImmuneRule)])
  }

  function HomeTenant(tenants: seq<TenantPolicy>, req: Request): Option<TenantPolicy> {
    var k := FindTenant(tenants, req.tenantID);
    if k < |tenants| then Some(tenants[k]) else None
  }

  function LaneTenant(tenants: seq<TenantPolicy>, req: Request): Option<TenantPolicy> {
    var k := FindInLane(tenants, req.tenantID, req.lane);
    if k < |tenants| then Some(tenants[k]) else None
  }

  ghost predicate PolicyCovers(t: TenantPolicy, c: Capability) {
    && c.cls in t.classes
    && (t.scopes == [] || c.scope in t.scopes)
    && (t.actions == [] || c.action in t.actions)
    && (t.risks == [] || c.risk in t.risks)
  }

  ghost predicate LatticeCovers(lattice: seq<Grant>, c: Capability, lane: string) {
    exists g :: g in lattice && g.capability == c && lane in g.lanes
  }

  ghost function Gates(tenants: seq<TenantPolicy>, lattice: seq<Grant>, req: Request, w: World): seq<Gate> {
    var home := HomeTenant(tenants, req);
    var bound := LaneTenant(tenants, req);
    [
      /*  0 */ Gate(w.ledgerOk, Verdict(Deny, LedgerBroken, LedgerIntegrity, ErrLedgerBreak, [])),
      /*  1 */ Gate(!w.terminated, Verdict(Deny, OperatorTermination, Lambda6, ErrTerminated,
                      [StageRecord(OperatorCorrigibility, false, OperatorTermination, Lambda6)])),
      /*  2 */ Gate(!w.interrupted, Verdict(Deny, OperatorInterruption, Lambda6, ErrInterrupted,
                      [StageRecord(OperatorCorrigibility, false, OperatorInterrupt, Lambda6)])),
      /*  3 */ Gate(req.requestID != "" && req.intentID != "", StageRefusal(0, IdsRequired, Lambda1)),
      /*  4 */ Gate(req.tenantID != "" && req.operatorID != "", StageRefusal(0, TenantAndOperatorRequired, Lambda2)),
      /*  5 */ Gate("" !in {req.capability.cls, req.capability.scope, req.capability.action, req.capability.risk},
                    StageRefusal(1, CapabilityIncomplete, CapabilityLattice)),
      /*  6 */ Gate(exists t :: t in tenants && t.tenantID == req.tenantID && t.lane == req.lane,
                    StageRefusal(2, LaneMismatchOrUnknownTenant, Lambda4)),
      /*  7 */ Gate(bound.Some? && bound.value.sovereign in {"", req.operatorID},
                    StageRefusal(2, NotSovereign, Lambda4)),
      /*  8 */ Gate(home.Some? && home.value.lane == req.lane, StageRefusal(3, LaneMismatch, Lambda4)),
      /*  9 */ Gate(LatticeCovers(lattice, req.capability, req.lane), StageRefusal(3, NotGranted, CapabilityLattice)),
      /* 10 */ Gate(home.Some? && PolicyCovers(home.value, req.capability),
                    StageRefusal(3, NotAllowedForTenant, TenantPolicyRule)),
      /* 11 */ Gate(w.drift.Some? ==> w.drift.value < 0.5, StageRefusal(4, DriftSpike, Lambda5)),
      /* 12 */ Gate(w.correction.None?,
                    StageRefusal(5, if w.correction.Some? then CorrectionActive(w.correction.value) else NoReason,
                                 Lambda6)),
      /* 13 */ Gate(req.payload != "", ImmuneRefusal(EmptyPayload)),
      /* 14 */ Gate(req.lane in {LANE_SAFE, LANE_NORMAL, LANE_EXPRESS}, ImmuneRefusal(UnknownLane)),
      /* 15 */ Gate(req.lane == LANE_SAFE || (home.Some? && home.value.sovereign == req.operatorID),
                    ImmuneRefusal(if req.lane == LANE_NORMAL then NormalLane else ExpressLane)),
      /* 16 */ Gate(w.registered, Verdict(Deny, NoEnabledProvider, ProviderRegistry, NoError,
                      PASSED + [StageRecord(ProviderStage, false, NoProviderRegistered, ProviderRegistry)])),
      /* 17 */ Gate(w.answer.ok, Verdict(Deny, Adapter(w.answer.why), ProviderAdapter, NoError,
                      PASSED + [StageRecord(ProviderStage, false, AdapterSays(w.answer.why), ProviderAdapter)]))
    ]
  }

  ghost predicate Through(gs: seq<Gate>, n: nat) {
    n <= |gs| && forall j :: 0 <= j < n ==> gs[j].ok
  }

  ghost function FirstFailing(gs: seq<Gate>): (k: nat)
    ensures Through(gs, k)
    ensures k < |gs| ==> !gs[k].ok
  {
    if gs == [] || !gs[0].ok then 0 else 1 + FirstFailing(gs[1..])
  }

  /** The verdict on a request: that of the first gate that fails, or ADMIT. */
  ghost function Decision(tenants: seq<TenantPolicy>, lattice: seq<Grant>, req: Request, w: World): Verdict {
    var gs := Gates(tenants, lattice, req, w);
    var k := FirstFailing(gs);
    if k < |gs| then gs[k].refusal else ADMITTED
  }

  lemma DecidedAt(tenants: seq<TenantPolicy>, lattice: seq<Grant>, req: Request, w: World, k: nat)
    requires k < 18 && Through(Gates(tenants, lattice, req, w), k) && !Gates(tenants, lattice, req, w)[k].ok
    ensures Decision(tenants, lattice, req, w) == Gates(tenants, lattice, req, w)[k].refusal
  {
    var gs := Gates(tenants, lattice, req, w);
    assert FirstFailing(gs) == k;
  }

  ghost predicate Admissible(tenants: seq<TenantPolicy>, lattice: seq<Grant>, req: Request, w: World) {
    Through(Gates(tenants, lattice, req, w), 18)
  }

  /** ADMIT exactly when every gate holds. */
  lemma AdmittedIffAdmissible(tenants: seq<TenantPolicy>, lattice: seq<Grant>, req: Request, w: World)
    ensures Decision(tenants, lattice, req, w).result == Admit <==> Admissible(tenants, lattice, req, w)
    ensures Decision(tenants, lattice, req, w).result == Admit ==> Decision(tenants, lattice, req, w) == ADMITTED
  {
    var gs := Gates(tenants, lattice, req, w);
    var k := FirstFailing(gs);
    assert k < 18 ==> gs[k].refusal.result != Admit;
  }

  /** What an ADMIT says about the stores. */
  lemma AdmittedMeans(tenants: seq<TenantPolicy>, lattice: seq<Grant>, req: Request, w: World)
    requires Decision(tenants, lattice, req, w).result == Admit
    ensures Decision(tenants, lattice, req, w) == ADMITTED
    ensures w.ledgerOk && !w.terminated && !w.interrupted && w.correction == None && w.registered && w.answer.ok
  {
    AdmittedIffAdmissible(tenants, lattice, req, w);
    var gs := Gates(tenants, lattice, req, w);
    assert gs[0].ok && gs[1].ok && gs[2].ok && gs[12].ok && gs[16].ok && gs[17].ok;
  }

  /** Ledger integrity comes first, then termination, then interruption, whatever else is wrong. */
  lemma FirstGates(tenants: seq<TenantPolicy>, lattice: seq<Grant>, req: Request, w: World)
    ensures !w.ledgerOk ==>
              Decision(tenants, lattice, req, w) == Verdict(Deny, LedgerBroken, LedgerIntegrity, ErrLedgerBreak, [])
    ensures w.ledgerOk && w.terminated ==>
              Decision(tenants, lattice, req, w) == Verdict(Deny, OperatorTermination, Lambda6, ErrTerminated,
                [StageRecord(OperatorCorrigibility, false, OperatorTermination, Lambda6)])
    ensures w.ledgerOk && !w.terminated && w.interrupted ==>
              Decision(tenants, lattice, req, w) == Verdict(Deny, OperatorInterruption, Lambda6, ErrInterrupted,
                [StageRecord(OperatorCorrigibility, false, OperatorInterrupt, Lambda6)])
    ensures Through(Gates(tenants, lattice, req, w), 3) <==> w.ledgerOk && !w.terminated && !w.interrupted
  {
    var gs := Gates(tenants, lattice, req, w);
    assert Through(gs, 3) <==> gs[0].ok && gs[1].ok && gs[2].ok;
    if !gs[0].ok { DecidedAt(tenants, lattice, req, w, 0); }
    else if !gs[1].ok { DecidedAt(tenants, lattice, req, w, 1); }
    else if !gs[2].ok { DecidedAt(tenants, lattice, req, w, 2); }
  }

  // ---- The pipeline decides its share of the table ------------------------------------

  /** Gates before stage `k` of the pipeline. */
  const BOUND: seq<nat> := [3, 5, 6, 8, 11, 12, 13, 13, 13, 13]

  function StageVerdict(log: seq<StageRecord>, out: StageRecord): Verdict {
    Verdict(Deny, out.reason, out.rule, NoError, log + [out])
  }

  ghost predicate Sees(si: StageInput, w: World) {
    && si.drift == w.drift
    && (si.req.intentID in si.flags.terminated <==> w.terminated)
    && (si.req.intentID in si.flags.interrupted <==> w.interrupted)
    && CorrectionOf(si.flags, si.req.intentID) == w.correction
  }

  lemma IdentityGates(tenants: seq<TenantPolicy>, req: Request)
    ensures CheckLambda4(req, tenants).passed <==>
              (exists t :: t in tenants && t.tenantID == req.tenantID && t.lane == req.lane) &&
              LaneTenant(tenants, req).Some? && LaneTenant(tenants, req).value.sovereign in {"", req.operatorID}
    ensures !CheckLambda4(req, tenants).passed ==>
              CheckLambda4(req, tenants).reason == (
                if exists t :: t in tenants && t.tenantID == req.tenantID && t.lane == req.lane
                then NotSovereign else LaneMismatchOrUnknownTenant)
  {
    var k := FindInLane(tenants, req.tenantID, req.lane);
    if k < |tenants| {
      assert tenants[k] in tenants;
    }
  }

  /** Stage `k` against its gates: it passes when they hold, and otherwise refuses as the first of them that fails. */
  ghost predicate StageAgrees(si: StageInput, w: World, k: nat)
    requires k < 9
  {
    && (Check(STAGES[k], si).passed <==> Through(Gates(si.tenants, si.lattice, si.req, w), BOUND[k + 1]))
    && (!Check(STAGES[k], si).passed ==>
          Decision(si.tenants, si.lattice, si.req, w) == StageVerdict(PASSED[..k], Check(STAGES[k], si)))
  }

  lemma InputGates(si: StageInput, w: World)
    requires Through(Gates(si.tenants, si.lattice, si.req, w), 3)
    ensures StageAgrees(si, w, 0)
  {
    var gs := Gates(si.tenants, si.lattice, si.req, w);
    assert Through(gs, 5) <==> gs[3].ok && gs[4].ok;
    if !gs[3].ok { DecidedAt(si.tenants, si.lattice, si.req, w, 3); }
    else if !gs[4].ok { DecidedAt(si.tenants, si.lattice, si.req, w, 4); }
  }

  lemma CapabilityGates(si: StageInput, w: World)
    requires Through(Gates(si.tenants, si.lattice, si.req, w), 5)
    ensures StageAgrees(si, w, 1)
  {
    var gs := Gates(si.tenants, si.lattice, si.req, w);
    assert Through(gs, 6) <==> gs[5].ok;
    if !gs[5].ok { DecidedAt(si.tenants, si.lattice, si.req, w, 5); }
  }

  /** Identity separation against gates 6 and 7. */
  lemma LaneGates(tenants: seq<TenantPolicy>, lattice: seq<Grant>, req: Request, w: World)
    ensures var gs, r := Gates(tenants, lattice, req, w), CheckLambda4(req, tenants);
            && (r.passed <==> gs[6].ok && gs[7].ok)
            && (!r.passed ==> r.reason == if gs[6].ok then NotSovereign else LaneMismatchOrUnknownTenant)
  {
    IdentityGates(tenants, req);
  }

  lemma IdentityStageGates(si: StageInput, w: World)
    requires Through(Gates(si.tenants, si.lattice, si.req, w), 6)
    ensures StageAgrees(si, w, 2)
  {
    LaneGates(si.tenants, si.lattice, si.req, w);
    LaneDecisions(si.tenants, si.lattice, si.req, w);
  }

  lemma LaneDecisions(tenants: seq<TenantPolicy>, lattice: seq<Grant>, req: Request, w: World)
    requires Through(Gates(tenants, lattice, req, w), 6)
    ensures var gs := Gates(tenants, lattice, req, w);
            && (Through(gs, 8) <==> gs[6].ok && gs[7].ok)
            && (!gs[6].ok ==>
                  Decision(tenants, lattice, req, w) == StageRefusal(2, LaneMismatchOrUnknownTenant, Lambda4))
            && (gs[6].ok && !gs[7].ok ==> Decision(tenants, lattice, req, w) == StageRefusal(2, NotSovereign, Lambda4))
  {
    var gs := Gates(tenants, lattice, req, w);
    assert Through(gs, 8) <==> gs[6].ok && gs[7].ok;
    if !gs[6].ok { DecidedAt(tenants, lattice, req, w, 6); }
    else if !gs[7].ok { DecidedAt(tenants, lattice, req, w, 7); }
  }

  lemma UslGates(si: StageInput, w: World)
    requires Through(Gates(si.tenants, si.lattice, si.req, w), 8)
    ensures StageAgrees(si, w, 3)
  {
    var gs := Gates(si.tenants, si.lattice, si.req, w);
    assert gs[4].ok && gs[6].ok;
    assert HomeTenant(si.tenants, si.req).Some?;
    assert Through(gs, 11) <==> gs[8].ok && gs[9].ok && gs[10].ok;
    if !gs[8].ok { DecidedAt(si.tenants, si.lattice, si.req, w, 8); }
    else if !gs[9].ok { DecidedAt(si.tenants, si.lattice, si.req, w, 9); }
    else if !gs[10].ok { DecidedAt(si.tenants, si.lattice, si.req, w, 10); }
  }

  lemma DriftGates(si: StageInput, w: World)
    requires Sees(si, w) && Through(Gates(si.tenants, si.lattice, si.req, w), 11)
    ensures StageAgrees(si, w, 4)
  {
    var gs := Gates(si.tenants, si.lattice, si.req, w);
    assert Through(gs, 12) <==> gs[11].ok;
    if !gs[11].ok { DecidedAt(si.tenants, si.lattice, si.req, w, 11); }
  }

  lemma OperatorGates(si: StageInput, w: World)
    requires Sees(si, w) && Through(Gates(si.tenants, si.lattice, si.req, w), 12)
    ensures StageAgrees(si, w, 5)
  {
    var gs := Gates(si.tenants, si.lattice, si.req, w);
    assert gs[1].ok && gs[2].ok;
    assert Through(gs, 13) <==> gs[12].ok;
    if !gs[12].ok { DecidedAt(si.tenants, si.lattice, si.req, w, 12); }
  }

  lemma StageGates(si: StageInput, w: World, k: nat)
    requires k < 9 && Sees(si, w) && Through(Gates(si.tenants, si.lattice, si.req, w), BOUND[k])
    ensures StageAgrees(si, w, k)
  {
    match k
    case 0 => InputGates(si, w);
    case 1 => CapabilityGates(si, w);
    case 2 => IdentityStageGates(si, w);
    case 3 => UslGates(si, w);
    case 4 => DriftGates(si, w);
    case 5 => OperatorGates(si, w);
    case _ =>
      var gs := Gates(si.tenants, si.lattice, si.req, w);
      assert gs[3].ok && gs[4].ok;
  }

  /** The whole pipeline against gates 3 to 12. */
  lemma PipelineGates(si: StageInput, w: World, outs: seq<StageRecord>, ok: bool)
    requires IsPipelineResult(si, outs, ok) && Sees(si, w)
    requires Through(Gates(si.tenants, si.lattice, si.req, w), 3)
    ensures ok ==> Through(Gates(si.tenants, si.lattice, si.req, w), 13)
    ensures !ok ==> Decision(si.tenants, si.lattice, si.req, w) == StageVerdict(outs[..|outs| - 1], outs[|outs| - 1])
  {
    var n := if ok then 9 else |outs| - 1;
    for k := 0 to n
      invariant Through(Gates(si.tenants, si.lattice, si.req, w), BOUND[k])
    {
      assert Check(STAGES[k], si).passed;
      StageGates(si, w, k);
    }
    if !ok {
      StageGates(si, w, n);
      assert outs[..n] == PASSED[..n];
    }
  }

  /** The immune step against gates 13 to 15. */
  lemma ImmuneGates(tenants: seq<TenantPolicy>, lattice: seq<Grant>, req: Request, w: World)
    requires Through(Gates(tenants, lattice, req, w), 13)
    ensures ImmuneVerdict(tenants, req).result.Allow? <==> Through(Gates(tenants, lattice, req, w), 16)
    ensures !ImmuneVerdict(tenants, req).result.Allow? ==>
              Decision(tenants, lattice, req, w) == ImmuneRefusal(ImmuneVerdict(tenants, req).reason)
  {
    var gs := Gates(tenants, lattice, req, w);
    assert gs[4].ok && gs[8].ok;
    SovereignOfFound(tenants, req.tenantID);
    assert LANE_NORMAL[0] != LANE_SAFE[0] && LANE_EXPRESS[0] != LANE_SAFE[0] && LANE_EXPRESS[0] != LANE_NORMAL[0];
    if !gs[13].ok { DecidedAt(tenants, lattice, req, w, 13); }
    else if !gs[14].ok { DecidedAt(tenants, lattice, req, w, 14); }
    else if !gs[15].ok { DecidedAt(tenants, lattice, req, w, 15); }
  }

  /** The registry and the adapter against gates 16 and 17. */
  lemma ProviderGates(tenants: seq<TenantPolicy>, lattice: seq<Grant>, req: Request, w: World)
    requires Through(Gates(tenants, lattice, req, w), 16)
    ensures !w.registered ==>
              Decision(tenants, lattice, req, w) == Verdict(Deny, NoEnabledProvider, ProviderRegistry, NoError,
                PASSED + [StageRecord(ProviderStage, false, NoProviderRegistered, ProviderRegistry)])
    ensures w.registered && !w.answer.ok ==>
              Decision(tenants, lattice, req, w) == Verdict(Deny, Adapter(w.answer.why), ProviderAdapter, NoError,
                PASSED + [StageRecord(ProviderStage, false, AdapterSays(w.answer.why), ProviderAdapter)])
    ensures w.registered && w.answer.ok ==> Decision(tenants, lattice, req, w) == ADMITTED
  {
    var gs := Gates(tenants, lattice, req, w);
    if !gs[16].ok { DecidedAt(tenants, lattice, req, w, 16); }
    else if !gs[17].ok { DecidedAt(tenants, lattice, req, w, 17); }
    else { AdmittedIffAdmissible(tenants, lattice, req, w); }
  }

  // ---- Monotone authority ---------------------------------------------------------------

  /** `v` is `w` with further operator orders. */
  ghost predicate MoreOrders(w: World, v: World) {
    && v.ledgerOk == w.ledgerOk && v.drift == w.drift && v.registered == w.registered && v.answer == w.answer
    && (w.terminated ==> v.terminated)
    && (w.interrupted ==> v.interrupted)
    && (w.correction.Some? ==> v.correction.Some?)
  }

  /** Orders only take authority away; appending tenants and extending the lattice only add to it. */
  lemma MonotoneAuthority(tenants: seq<TenantPolicy>, more: seq<TenantPolicy>, lattice: seq<Grant>, wider: seq<Grant>,
                          req: Request, w: World, v: World)
    requires MoreOrders(w, v)
    requires forall g :: g in lattice ==> g in wider
    requires Decision(tenants, lattice, req, v).result == Admit
    ensures Decision(tenants, lattice, req, w).result == Admit
    ensures Decision(tenants + more, wider, req, v).result == Admit
  {
    AdmittedIffAdmissible(tenants, lattice, req, v);
    AdmittedIffAdmissible(tenants, lattice, req, w);
    AdmittedIffAdmissible(tenants + more, wider, req, v);
    FewerOrders(tenants, lattice, req, w, v);
    WiderConfiguration(tenants, more, lattice, wider, req, v);
  }

  lemma FewerOrders(tenants: seq<TenantPolicy>, lattice: seq<Grant>, req: Request, w: World, v: World)
    requires MoreOrders(w, v) && Admissible(tenants, lattice, req, v)
    ensures Admissible(tenants, lattice, req, w)
  {
    var gs, hs := Gates(tenants, lattice, req, v), Gates(tenants, lattice, req, w);
    forall j | 0 <= j < 18 ensures hs[j].ok {
      assert gs[j].ok;
    }
  }

  lemma WiderConfiguration(tenants: seq<TenantPolicy>, more: seq<TenantPolicy>, lattice: seq<Grant>,
                           wider: seq<Grant>, req: Request, w: World)
    requires forall g :: g in lattice ==> g in wider
    requires Admissible(tenants, lattice, req, w)
    ensures Admissible(tenants + more, wider, req, w)
  {
    var gs, hs := Gates(tenants, lattice, req, w), Gates(tenants + more, wider, req, w);
    assert gs[6].ok && gs[7].ok && gs[8].ok;
    var k, m := FindTenant(tenants, req.tenantID), FindInLane(tenants, req.tenantID, req.lane);
    assert k < |tenants| && m < |tenants|;
    var k', m' := FindTenant(tenants + more, req.tenantID), FindInLane(tenants + more, req.tenantID, req.lane);
    assert (tenants + more)[k] == tenants[k] && (tenants + more)[m] == tenants[m];
    assert k' == k && m' == m;
    forall j | 0 <= j < 18 ensures hs[j].ok {
      assert gs[j].ok;
    }
  }
}
