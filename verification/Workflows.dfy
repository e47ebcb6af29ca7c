/** The governed workflows (workflows.go): each binds a capability onto the request before the router sees it. */
module Workflows {
  import opened Types
  import opened Ledgers
  import opened Stores
  import opened Usl
  import opened Gre
  import opened Admission
  import opened Routing
  import opened Configs

  datatype WorkflowSpec = WorkflowSpec(capability: Capability, lanes: seq<string>)

  /** The four specifications. */
  function Spec(id: string): Option<WorkflowSpec> {
    if id == "governed-intake" then
      Some(WorkflowSpec(Capability("intake", "unstructured", "ingest", "low"), [LANE_SAFE, LANE_NORMAL, LANE_EXPRESS]))
    else if id == "otem-execution" then
      Some(WorkflowSpec(Capability("execution", "otem", "execute", "medium"), [LANE_NORMAL, LANE_EXPRESS]))
    else if id == "external-suggestion-admission" then
      Some(WorkflowSpec(Capability("admission", "external", "attach", "low"), [LANE_SAFE, LANE_NORMAL]))
    else if id == "governed-training-eval" then
      Some(WorkflowSpec(Capability("training", "eval", "run", "low"), [LANE_SAFE]))
    else None
  }

  /** The workflows and the lanes each may run in. */
  ghost predicate MayRun(id: string, lane: string) {
    || (id == "governed-intake" && lane in {LANE_SAFE, LANE_NORMAL, LANE_EXPRESS})
    || (id == "otem-execution" && lane in {LANE_NORMAL, LANE_EXPRESS})
    || (id == "external-suggestion-admission" && lane in {LANE_SAFE, LANE_NORMAL})
    || (id == "governed-training-eval" && lane == LANE_SAFE)
  }

  /** The entry is about `req`, with the capability of the workflow in the place of its own. */
  ghost predicate BearsWorkflow(e: Entry, id: string, req: Request) {
    && e.requestID == req.requestID && e.intentID == req.intentID && e.tenantID == req.tenantID
    && e.lane == req.lane && e.provider == req.modelRef.providerID
    && (id == "governed-intake" ==> e.capability == Capability("intake", "unstructured", "ingest", "low"))
    && (id == "otem-execution" ==> e.capability == Capability("execution", "otem", "execute", "medium"))
    && (id == "external-suggestion-admission" ==> e.capability == Capability("admission", "external", "attach", "low"))
    && (id == "governed-training-eval" ==> e.capability == Capability("training", "eval", "run", "low"))
  }

  const IDS := {"governed-intake", "otem-execution", "external-suggestion-admission", "governed-training-eval"}

  /** What `Spec` knows, by id and lane. */
  lemma SpecIsMayRun(id: string, lane: string)
    ensures Spec(id).Some? <==> id in IDS
    ensures Spec(id).Some? && lane in Spec(id).value.lanes <==> MayRun(id, lane)
  {
  }

  lemma BoundBears(e: Entry, id: string, req: Request)
    requires Spec(id).Some? && SameSubject(e, req.(capability := Spec(id).value.capability))
    ensures BearsWorkflow(e, id, req)
  {
  }

  datatype RunError = NoRunError | UnknownWorkflow | LaneNotAllowed | RouterError(err: Error)

  datatype RunResult = RunResult(outcome: Option<Outcome>, result: Option<string>, err: RunError)

  method Run(router: Router, id: string, req: Request, a: Ambient, b: Ambient) returns (r: RunResult)
    requires router.Valid()
    modifies router.ledger, router.exec
    // An unknown workflow or a lane it does not allow never reaches the router, and no other request is kept from it.
    ensures id !in IDS ==> r == RunResult(None, None, UnknownWorkflow)
    ensures id in IDS && !MayRun(id, req.lane) ==> r == RunResult(None, None, LaneNotAllowed)
    ensures r.outcome.Some? <==> MayRun(id, req.lane)
    ensures r.outcome.None? ==> unchanged(router.ledger) && unchanged(router.exec)
    // Otherwise the router governs the request with the bound capability, once, and its answer is passed on.
    ensures old(router.ledger.entries) <= router.ledger.entries
    ensures forall k :: old(|router.ledger.entries|) <= k < |router.ledger.entries| ==>
              BearsWorkflow(router.ledger.entries[k], id, req)
    ensures r.outcome.Some? ==>
              Spec(id).Some? &&
              var bound := req.(capability := Spec(id).value.capability);
              var v := old(Decision(router.tenants, router.lattice, bound, router.WorldOf(bound, a.answer)));
              && router.ledger.State() == Governed(router.ledger.hash, old(router.ledger.State()), bound, v, a, b)
              && r.result == GovernedResult(v, b)
              && r.err == (if v.err == NoError then NoRunError else RouterError(v.err))
              // A result comes only from an admitted request, and is the last ledger entry.
              && (r.result.Some? ==>
                    && v == ADMITTED && |router.ledger.entries| == old(|router.ledger.entries|) + 2
                    && router.ledger.entries[|router.ledger.entries| - 1].executionHash == r.result.value)
  {
    SpecIsMayRun(id, req.lane);
    var spec := Spec(id);
    if spec.None? {
      return RunResult(None, None, UnknownWorkflow);
    }
    if !Contains(spec.value.lanes, req.lane) {
      return RunResult(None, None, LaneNotAllowed);
    }
    r := RunBound(router, req.(capability := spec.value.capability), a, b);
    ghost var es := router.ledger.entries;
    forall k | old(|router.ledger.entries|) <= k < |es|
      ensures BearsWorkflow(es[k], id, req)
    {
      BoundBears(es[k], id, req);
    }
  }

  /** The governed execution of a request with the workflow's capability bound to it. */
  method RunBound(router: Router, bound: Request, a: Ambient, b: Ambient) returns (r: RunResult)
    requires router.Valid()
    modifies router.ledger, router.exec
    ensures r.outcome.Some?
    ensures old(router.ledger.entries) <= router.ledger.entries
    ensures forall k :: old(|router.ledger.entries|) <= k < |router.ledger.entries| ==>
              SameSubject(router.ledger.entries[k], bound)
    ensures var v := old(Decision(router.tenants, router.lattice, bound, router.WorldOf(bound, a.answer)));
            && router.ledger.State() == Governed(router.ledger.hash, old(router.ledger.State()), bound, v, a, b)
            && r.result == GovernedResult(v, b)
            && r.err == (if v.err == NoError then NoRunError else RouterError(v.err))
            && (r.result.Some? ==>
                  && v == ADMITTED && |router.ledger.entries| == old(|router.ledger.entries|) + 2
                  && router.ledger.entries[|router.ledger.entries| - 1].executionHash == r.result.value)
  {
    AdmittedIffAdmissible(router.tenants, router.lattice, bound, router.WorldOf(bound, a.answer));
    var out, result, err := router.GovernAndExecute(bound, a, b);
    return RunResult(Some(out), result, if err == NoError then NoRunError else RouterError(err));
  }

  /** None of the four specifications asks for execute at low risk. */
  lemma SpecsAskForMore(id: string)
    requires Spec(id).Some?
    ensures Spec(id).value.capability.action != "execute" || Spec(id).value.capability.risk != "low"
  {
    assert "ingest"[0] != "execute"[0] && "attach"[0] != "execute"[0] && "run"[0] != "execute"[0];
    assert "medium"[0] != "low"[0];
  }

  /** So on a built configuration no workflow is ever admitted: it is refused at the lattice or before, and with any
      adapter and any store contents no provider is asked. */
  lemma WorkflowsStopAtTheLattice(ts: seq<LegacyTenant>, policies: seq<TenantPolicy>, lattice: seq<Grant>, id: string,
                                  req: Request, w: World)
    requires IsBuild(ts, policies, lattice) && Spec(id).Some?
    ensures !Through(Gates(policies, lattice, req.(capability := Spec(id).value.capability), w), 10)
    ensures Decision(policies, lattice, req.(capability := Spec(id).value.capability), w).result != Admit
  {
    var bound := req.(capability := Spec(id).value.capability);
    SpecsAskForMore(id);
    BuiltLattice(ts, bound.capability, bound.lane);
    assert !LatticeCovers(lattice, bound.capability, bound.lane);
    LatticeGateFails(policies, lattice, bound, w);
  }

  lemma LatticeGateFails(tenants: seq<TenantPolicy>, lattice: seq<Grant>, req: Request, w: World)
    requires !LatticeCovers(lattice, req.capability, req.lane)
    ensures !Through(Gates(tenants, lattice, req, w), 10)
    ensures Decision(tenants, lattice, req, w).result != Admit
  {
    assert !Gates(tenants, lattice, req, w)[9].ok;
    AdmittedIffAdmissible(tenants, lattice, req, w);
  }
}
