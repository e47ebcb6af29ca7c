/** The router object (router.go) and the operator endpoints (server.go), run one call at a time. */
module Routing {
  import opened Types
  import opened Ledgers
  import opened Stores
  import opened Usl
  import opened Gre
  import opened Admission

  datatype DecisionRecord = DecisionRecord(
    result: AdmitResult, reason: Reason, rule: RuleRef, decisionID: string, requestID: string)

  datatype Outcome = Outcome(decision: DecisionRecord, entry: Entry, stages: seq<StageRecord>)

  /** The verdict a started Generate leaves behind when it does not yield a result. */
  function GenerationRefusal(g: Generation): Verdict
    requires !g.Generated?
  {
    if g.TimedOut? then
      Verdict(Deny, ExecutionTimedOut, ProviderExecution, NoError,
              [StageRecord(ProviderStage, false, ExecutionTimedOut, ProviderExecution)])
    else
      Verdict(Deny, ExecutionFailed, ProviderExecution, NoError,
              [StageRecord(ProviderStage, false, AdapterSays(g.why), ProviderExecution)])
  }

  /** The entry tells how the bounded Generate of an admitted request ended: the result under the admission's decision,
      or a refusal with the timeout or the adapter's own error as its one stage record. */
  ghost predicate EndsGenerate(e: Entry, req: Request, decisionID: string, g: Generation) {
    && SameSubject(e, req)
    && match g
       case Generated(hash) => IsExecutionOf(e, decisionID, hash)
       case TimedOut =>
         Records(e, req, Verdict(Deny, ExecutionTimedOut, ProviderExecution, NoError,
                                 [StageRecord(ProviderStage, false, ExecutionTimedOut, ProviderExecution)]))
       case Failed(why) =>
         Records(e, req, Verdict(Deny, ExecutionFailed, ProviderExecution, NoError,
                                 [StageRecord(ProviderStage, false, AdapterSays(why), ProviderExecution)]))
  }

  /** The entry was stamped with these outside readings. */
  ghost predicate CarriesStep(e: Entry, a: Ambient) {
    e.decisionID == a.decisionID && e.replayID == a.replayID && e.timestamp == a.now
  }

  /** The stage records an admission hands back: those of the pipeline when it decided, none otherwise. */
  ghost function StagesOf(v: Verdict): seq<StageRecord> {
    if v.result.Admit? || (v.result.Deny? && v.err.NoError? && v.rule !in {ProviderRegistry, ProviderAdapter})
    then v.log else []
  }

  /** The refusal of an admitted request whose provider is gone. */
  const PROVIDER_GONE := Verdict(Deny, NoProviderAtExecute, ProviderRegistry, NoError,
    [StageRecord(ProviderStage, false, NoProviderRegistered, ProviderRegistry)])

  /** The entry that the bounded Generate of an admitted request ends in. */
  function GenerationEntry(req: Request, decisionID: string, b: Ambient): Entry {
    if b.generation.Generated? then ExecutionDraft(req, decisionID, b.generation.hash, b.replayID)
    else VerdictDraft(req, GenerationRefusal(b.generation), b)
  }

  /** The ledger after a governed execution that runs alone: the verdict, and after ADMIT the end of Generate. */
  ghost function Governed(h: Entry -> string, ledger: LedgerState, req: Request, v: Verdict, a: Ambient, b: Ambient)
    : LedgerState
  {
    var decided := Appended(h, ledger, VerdictDraft(req, v, a), a.now);
    if v.result.Admit? then Appended(h, decided, GenerationEntry(req, a.decisionID, b), b.now) else decided
  }

  /** What the ledger stores for a verdict tells that verdict, under the decision id of the call. */
  lemma StampedVerdict(h: Entry -> string, ledger: LedgerState, req: Request, v: Verdict, a: Ambient)
    ensures var e := Stamp(h, ledger, VerdictDraft(req, v, a), a.now);
            && Records(e, req, v) && e.decisionID == a.decisionID && e.timestamp == a.now
            && e.replayID == if v.rule == LedgerIntegrity then "replay-" + req.intentID else a.replayID
  {
  }

  /** What it stores at the end of Generate tells that end. */
  lemma StampedGeneration(h: Entry -> string, ledger: LedgerState, req: Request, decisionID: string, b: Ambient)
    ensures var e := Stamp(h, ledger, GenerationEntry(req, decisionID, b), b.now);
            && EndsGenerate(e, req, decisionID, b.generation) && e.replayID == b.replayID && e.timestamp == b.now
            && (!b.generation.Generated? ==> CarriesStep(e, b))
  {
  }

  /** Only a broken ledger is refused under ledger.integrity. */
  lemma BreakIsIntegrity(tenants: seq<TenantPolicy>, lattice: seq<Grant>, req: Request, w: World)
    ensures var v := Decision(tenants, lattice, req, w); v.rule == LedgerIntegrity <==> v.err == ErrLedgerBreak
  {
    var gs := Gates(tenants, lattice, req, w);
    var k := FirstFailing(gs);
    assert k < 18 ==> (gs[k].refusal.rule == LedgerIntegrity <==> gs[k].refusal.err == ErrLedgerBreak);
  }

  /** Two new entries: the ADMIT decision, and how Generate ended; the outcome is that of the ADMIT, or the refusal. */
  ghost predicate TellsGoverned(before: seq<Entry>, es: seq<Entry>, req: Request, a: Ambient, b: Ambient,
                                out: Outcome) {
    var n := |before|;
    && |es| == n + 2 && es[..n] == before
    && Records(es[n], req, ADMITTED) && CarriesStep(es[n], a)
    && TellsEnd(es[n + 1], req, a.decisionID, b, Outcome(
         DecisionRecord(Admit, Admitted, UslGate, a.decisionID, req.requestID), es[n], PASSED), out)
  }

  /** The entry is how Generate ended: `out` is then the outcome before it, or that of the refusal. */
  ghost predicate TellsEnd(e: Entry, req: Request, decisionID: string, b: Ambient, admitted: Outcome, out: Outcome) {
    && EndsGenerate(e, req, decisionID, b.generation) && e.replayID == b.replayID && e.timestamp == b.now
    && if b.generation.Generated? then out == admitted
       else
         && e.decisionID == b.decisionID
         && out == Outcome(DecisionRecord(Deny, e.reason, ProviderExecution, b.decisionID, req.requestID), e, [])
  }

  lemma OneSubject(before: seq<Entry>, e: Entry, req: Request)
    requires SameSubject(e, req)
    ensures forall k :: |before| <= k < |before + [e]| ==> SameSubject((before + [e])[k], req)
  {
  }

  lemma JoinTellings(before: seq<Entry>, decided: seq<Entry>, es: seq<Entry>, req: Request, a: Ambient, b: Ambient,
                     admitted: Outcome, out: Outcome)
    requires decided == before + [admitted.entry] && |es| == |decided| + 1 && es[..|decided|] == decided
    requires admitted ==
             Outcome(DecisionRecord(Admit, Admitted, UslGate, a.decisionID, req.requestID), admitted.entry, PASSED)
    requires Records(admitted.entry, req, ADMITTED) && CarriesStep(admitted.entry, a)
    requires TellsEnd(es[|decided|], req, a.decisionID, b, admitted, out)
    ensures TellsGoverned(before, es, req, a, b, out)
    ensures before <= es && forall k :: |before| <= k < |es| ==> SameSubject(es[k], req)
  {
    var n := |before|;
    assert es[n] == decided[n] == admitted.entry;
    assert es[..n] == decided[..n] == before;
    forall k | n <= k < |es| ensures SameSubject(es[k], req) {
      assert k == n || k == n + 1;
    }
  }

  /** What it returns beside the outcome. */
  function GovernedResult(v: Verdict, b: Ambient): Option<string> {
    if v.result.Admit? && b.generation.Generated? then Some(b.generation.hash) else None
  }

  class Router {
    const tenants: seq<TenantPolicy>
    const lattice: seq<Grant>
    const ledger: Ledger
    const interrupts: InterruptStore
    const gre: GRE1001
    const exec: ExecutionState
    var providers: set<string>

    ghost predicate Valid() {
      gre.interrupts == interrupts
    }

    /** What an admission of `req` will read, if nothing else runs meanwhile. */
    ghost function WorldOf(req: Request, answer: Answer): World
      reads this, ledger, interrupts, gre
    {
      World(Linked(ledger.entries), req.intentID in interrupts.terminate, req.intentID in interrupts.interrupt,
            CorrectionOf(interrupts.State(), req.intentID), gre.driftOverride,
            req.modelRef.providerID in providers, answer)
    }

    constructor (tenants: seq<TenantPolicy>, lattice: seq<Grant>, hash: Entry -> string)
      ensures Valid() && this.tenants == tenants && this.lattice == lattice
      ensures fresh(ledger) && fresh(interrupts) && fresh(gre) && fresh(exec)
      ensures ledger.hash == hash && ledger.State() == EMPTY_LEDGER
      ensures interrupts.State() == NO_FLAGS && exec.states == map[]
      ensures gre.driftOverride == None && providers == {}
    {
      this.tenants, this.lattice := tenants, lattice;
      this.ledger := new Ledger(hash);
      var store := new InterruptStore();
      this.interrupts := store;
      this.gre := new GRE1001(store);
      this.exec := new ExecutionState();
      this.providers := {};
    }

    method RegisterProvider(id: string)
      modifies this
      ensures providers == old(providers) + {id}
    {
      providers := providers + {id};
    }

    /** Ledgers a decision and packs the outcome. */
    method Record(req: Request, result: AdmitResult, reason: Reason, rule: RuleRef, log: seq<StageRecord>,
                  stages: seq<StageRecord>, a: Ambient)
      returns (out: Outcome)
      modifies ledger
      ensures out == Outcome(DecisionRecord(result, reason, rule, a.decisionID, req.requestID), out.entry, stages)
      ensures ledger.State() == Appended(ledger.hash, old(ledger.State()),
                DecisionDraft(req, result.Admit?, result, reason, rule, a.decisionID, log, a.replayID), a.now)
      ensures out.entry == Stamp(ledger.hash, old(ledger.State()),
                DecisionDraft(req, result.Admit?, result, reason, rule, a.decisionID, log, a.replayID), a.now)
      ensures ledger.entries == old(ledger.entries) + [out.entry]
    {
      var entry := ledger.WriteDecision(req, result.Admit?, result, reason, rule, a.decisionID, log, a.now, a.replayID);
      out := Outcome(DecisionRecord(result, reason, rule, a.decisionID, req.requestID), entry, stages);
    }

    /** Admission decides as the gate table says, ledgers that verdict once, and touches nothing else but
        the execution state of a terminated intent. */
    method Admit(req: Request, a: Ambient) returns (out: Outcome, err: Error)
      requires Valid()
      modifies ledger, exec
      ensures var v := old(Decision(tenants, lattice, req, WorldOf(req, a.answer)));
              && out.decision == DecisionRecord(v.result, v.reason, v.rule, a.decisionID, req.requestID)
              && err == v.err && out.stages == StagesOf(v)
              && ledger.State() == Appended(ledger.hash, old(ledger.State()), VerdictDraft(req, v, a), a.now)
              && out.entry == Stamp(ledger.hash, old(ledger.State()), VerdictDraft(req, v, a), a.now)
              && ledger.entries == old(ledger.entries) + [out.entry] && Records(out.entry, req, v)
              && out.entry.decisionID == out.decision.decisionID == a.decisionID && out.entry.timestamp == a.now
              && out.entry.replayID == (if v.err == ErrLedgerBreak then "replay-" + req.intentID else a.replayID)
              && exec.states == (if v.err == ErrTerminated then old(exec.states)[req.intentID := Terminated]
                                 else old(exec.states))
    {
      ghost var w, before := WorldOf(req, a.answer), ledger.State();
      out, err := Decide(req, a);
      StampedVerdict(ledger.hash, before, req, Decision(tenants, lattice, req, w), a);
      BreakIsIntegrity(tenants, lattice, req, w);
    }

    /** The steps of `Admit`. */
    method Decide(req: Request, a: Ambient) returns (out: Outcome, err: Error)
      requires Valid()
      modifies ledger, exec
      ensures var v := old(Decision(tenants, lattice, req, WorldOf(req, a.answer)));
              && out.decision == DecisionRecord(v.result, v.reason, v.rule, a.decisionID, req.requestID)
              && err == v.err && out.stages == StagesOf(v)
              && ledger.State() == Appended(ledger.hash, old(ledger.State()), VerdictDraft(req, v, a), a.now)
              && out.entry == Stamp(ledger.hash, old(ledger.State()), VerdictDraft(req, v, a), a.now)
              && exec.states == (if v.err == ErrTerminated then old(exec.states)[req.intentID := Terminated]
                                 else old(exec.states))
    {
      ghost var w := WorldOf(req, a.answer);
      FirstGates(tenants, lattice, req, w);
      var intact, _ := ledger.Verify();
      if !intact {
        out := RefuseBroken(req, a);
        return out, ErrLedgerBreak;
      }

      var terminated := interrupts.IsTerminated(req.intentID);
      if terminated {
        exec.Forcibly(req.intentID, Terminated);
        out := Record(req, Deny, OperatorTermination, Lambda6,
                      [StageRecord(OperatorCorrigibility, false, OperatorTermination, Lambda6)], [], a);
        return out, ErrTerminated;
      }

      out, err := AdmitNotTerminated(req, a, w);
    }

    /** The rest of `Admit`, for a request whose intent is not terminated. */
    method AdmitNotTerminated(req: Request, a: Ambient, ghost w: World) returns (out: Outcome, err: Error)
      requires Valid() && w == WorldOf(req, a.answer) && w.ledgerOk && !w.terminated
      modifies ledger
      ensures var v := Decision(tenants, lattice, req, w);
              && out.decision == DecisionRecord(v.result, v.reason, v.rule, a.decisionID, req.requestID)
              && err == v.err != ErrTerminated && out.stages == StagesOf(v)
              && ledger.State() == Appended(ledger.hash, old(ledger.State()), VerdictDraft(req, v, a), a.now)
              && out.entry == Stamp(ledger.hash, old(ledger.State()), VerdictDraft(req, v, a), a.now)
    {
      FirstGates(tenants, lattice, req, w);
      var interrupted := interrupts.IsInterrupted(req.intentID);
      if interrupted {
        out := Record(req, Deny, OperatorInterruption, Lambda6,
                      [StageRecord(OperatorCorrigibility, false, OperatorInterrupt, Lambda6)], [], a);
        return out, ErrInterrupted;
      }

      out, err := AdmitGoverned(req, a, w);
    }

    /** The refusal of a broken ledger is appended to it, under a marker of its own. */
    method RefuseBroken(req: Request, a: Ambient) returns (out: Outcome)
      modifies ledger
      ensures var v := Verdict(Deny, LedgerBroken, LedgerIntegrity, ErrLedgerBreak, []);
              && out.decision == DecisionRecord(v.result, v.reason, v.rule, a.decisionID, req.requestID)
              && out.stages == []
              && ledger.State() == Appended(ledger.hash, old(ledger.State()), VerdictDraft(req, v, a), a.now)
              && out.entry == Stamp(ledger.hash, old(ledger.State()), VerdictDraft(req, v, a), a.now)
    {
      var entry := ledger.Append(
        Entry(0, 0, req.requestID, req.intentID, req.tenantID, req.lane, req.capability, req.modelRef.providerID,
              false, Deny, LedgerBroken, LedgerIntegrity, a.decisionID, [], "", "", "replay-" + req.intentID, ""),
        a.now);
      return Outcome(DecisionRecord(Deny, LedgerBroken, LedgerIntegrity, a.decisionID, req.requestID), entry, []);
    }

    /** The pipeline settles gates 3 to 12. */
    method RunPipeline(req: Request, a: Ambient, ghost w: World) returns (stages: seq<StageRecord>, passed: bool)
      requires Valid() && w == WorldOf(req, a.answer) && Through(Gates(tenants, lattice, req, w), 3)
      ensures passed ==> stages == PASSED && Through(Gates(tenants, lattice, req, w), 13)
      ensures !passed ==> |stages| > 0
      ensures !passed ==> Decision(tenants, lattice, req, w) ==
                          Verdict(Deny, stages[|stages| - 1].reason, stages[|stages| - 1].rule, NoError, stages)
    {
      stages, passed := gre.Run(req, tenants, lattice);
      PipelineGates(gre.Input(req, tenants, lattice), w, stages, passed);
      assert !passed ==> stages == stages[..|stages| - 1] + [stages[|stages| - 1]];
    }

    /** The pipeline and what follows it, for a request whose intent carries no order to stop. */
    method AdmitGoverned(req: Request, a: Ambient, ghost w: World) returns (out: Outcome, err: Error)
      requires Valid() && w == WorldOf(req, a.answer) && Through(Gates(tenants, lattice, req, w), 3)
      modifies ledger
      ensures var v := Decision(tenants, lattice, req, w);
              && out.decision == DecisionRecord(v.result, v.reason, v.rule, a.decisionID, req.requestID)
              && err == v.err == NoError && out.stages == StagesOf(v)
              && ledger.State() == Appended(ledger.hash, old(ledger.State()), VerdictDraft(req, v, a), a.now)
              && out.entry == Stamp(ledger.hash, old(ledger.State()), VerdictDraft(req, v, a), a.now)
    {
      var stages, passed := RunPipeline(req, a, w);
      if !passed {
        var last := stages[|stages| - 1];
        out := Record(req, Deny, last.reason, last.rule, stages, stages, a);
        return out, NoError;
      }

      out, err := AdmitPassed(req, a, stages, w);
    }

    /** The rest of `Admit`, for a request that all nine stages passed. */
    method AdmitPassed(req: Request, a: Ambient, stages: seq<StageRecord>, ghost w: World)
      returns (out: Outcome, err: Error)
      requires Valid() && w == WorldOf(req, a.answer)
      requires stages == PASSED && Through(Gates(tenants, lattice, req, w), 13)
      modifies ledger
      ensures var v := Decision(tenants, lattice, req, w);
              && out.decision == DecisionRecord(v.result, v.reason, v.rule, a.decisionID, req.requestID)
              && err == v.err == NoError && out.stages == StagesOf(v)
              && ledger.State() == Appended(ledger.hash, old(ledger.State()), VerdictDraft(req, v, a), a.now)
              && out.entry == Stamp(ledger.hash, old(ledger.State()), VerdictDraft(req, v, a), a.now)
    {
      var immune := Classify(req);
      if immune.result == Clamp || immune.result == Reroute {
        var sovereign := TenantSovereign(tenants, req.tenantID);
        if sovereign.Some? && sovereign.value == req.operatorID {
          immune := ImmuneDecision(Allow, OperatorApproved(immune.reason));
        }
      }
      ImmuneGates(tenants, lattice, req, w);
      if immune.result != Allow {
        out := Record(req, Quarantine, Immune(immune.reason), ImmuneRule,
                      stages + [StageRecord(ImmuneStage, false, immune.reason, ImmuneRule)], [], a);
        return out, NoError;
      }

      out, err := AdmitAllowed(req, a, stages, w);
    }

    /** The rest of `Admit`, for a request that the immune step allows. */
    method AdmitAllowed(req: Request, a: Ambient, stages: seq<StageRecord>, ghost w: World)
      returns (out: Outcome, err: Error)
      requires Valid() && w == WorldOf(req, a.answer)
      requires stages == PASSED && Through(Gates(tenants, lattice, req, w), 16)
      modifies ledger
      ensures var v := Decision(tenants, lattice, req, w);
              && out.decision == DecisionRecord(v.result, v.reason, v.rule, a.decisionID, req.requestID)
              && err == v.err == NoError && out.stages == StagesOf(v)
              && ledger.State() == Appended(ledger.hash, old(ledger.State()), VerdictDraft(req, v, a), a.now)
              && out.entry == Stamp(ledger.hash, old(ledger.State()), VerdictDraft(req, v, a), a.now)
    {
      ProviderGates(tenants, lattice, req, w);
      if req.modelRef.providerID !in providers {
        out := Record(req, Deny, NoEnabledProvider, ProviderRegistry,
                      stages + [StageRecord(ProviderStage, false, NoProviderRegistered, ProviderRegistry)], [], a);
        return out, NoError;
      }

      if !a.answer.ok {
        out := Record(req, Deny, Adapter(a.answer.why), ProviderAdapter,
                      stages + [StageRecord(ProviderStage, false, AdapterSays(a.answer.why), ProviderAdapter)], [], a);
        return out, NoError;
      }

      FirstGates(tenants, lattice, req, w);
      var terminated := interrupts.IsTerminated(req.intentID);
      if terminated {
        assert false;
      }
      var interrupted := interrupts.IsInterrupted(req.intentID);
      if interrupted {
        assert false;
      }

      out := Record(req, Types.Admit, Admitted, UslGate, stages, stages, a);
      return out, NoError;
    }

    /** Governed execution: nothing beyond the admission unless it was ADMIT; after ADMIT, exactly one more
        entry, an execution bound to the admission's decision id or a provider.execution refusal. */
    method GovernAndExecute(req: Request, a: Ambient, b: Ambient)
      returns (out: Outcome, result: Option<string>, err: Error)
      requires Valid()
      modifies ledger, exec
      ensures var v := old(Decision(tenants, lattice, req, WorldOf(req, a.answer)));
              && ledger.State() == Governed(ledger.hash, old(ledger.State()), req, v, a, b)
              && result == GovernedResult(v, b) && err == v.err
              && old(ledger.entries) <= ledger.entries
              && (forall k :: old(|ledger.entries|) <= k < |ledger.entries| ==> SameSubject(ledger.entries[k], req))
              && if !v.result.Admit? then
                   && out == Outcome(DecisionRecord(v.result, v.reason, v.rule, a.decisionID, req.requestID),
                                     out.entry, StagesOf(v))
                   && ledger.entries == old(ledger.entries) + [out.entry]
                   && Records(out.entry, req, v) && out.entry.decisionID == a.decisionID
                 else
                   && exec.states == Transitioned(old(exec.states), req.intentID,
                                                  old(Current(exec.states, req.intentID)), Running)
                   && TellsGoverned(old(ledger.entries), ledger.entries, req, a, b, out)
    {
      ghost var w := WorldOf(req, a.answer);
      ghost var before := ledger.entries;
      if Decision(tenants, lattice, req, w).result.Admit? {
        AdmittedMeans(tenants, lattice, req, w);
      }
      out, err := Admit(req, a);
      if err != NoError {
        OneSubject(before, out.entry, req);
        return out, None, err;
      }
      OneSubject(before, out.entry, req);
      if !out.decision.result.Admit? {
        return out, None, NoError;
      }
      var terminated := interrupts.IsTerminated(req.intentID);
      if terminated {
        assert false;
      }
      var directive, _ := interrupts.Correction(req.intentID);
      var interrupted := interrupts.IsInterrupted(req.intentID);
      if interrupted || directive != "" {
        assert false;
      }

      ghost var admitted, decided := out, ledger.entries;
      out, result := Execute(req, out, b);
      err := NoError;
      JoinTellings(before, decided, ledger.entries, req, a, b, admitted, out);
    }

    /** The execution itself, once the final operator check has passed: exactly one entry, whatever happens. */
    method Execute(req: Request, admitted: Outcome, b: Ambient) returns (out: Outcome, result: Option<string>)
      modifies ledger, exec
      ensures exec.states == Transitioned(old(exec.states), req.intentID,
                                          old(Current(exec.states, req.intentID)), Running)
      ensures ledger.State() == Appended(ledger.hash, old(ledger.State()),
                if req.modelRef.providerID in providers then GenerationEntry(req, admitted.decision.decisionID, b)
                else VerdictDraft(req, PROVIDER_GONE, b), b.now)
      ensures |ledger.entries| == old(|ledger.entries|) + 1
      ensures ledger.entries[..old(|ledger.entries|)] == old(ledger.entries)
      ensures var e := ledger.entries[old(|ledger.entries|)];
              && e.replayID == b.replayID && e.timestamp == b.now
              && if req.modelRef.providerID !in providers then
                   && Records(e, req, Verdict(Deny, NoProviderAtExecute, ProviderRegistry, NoError,
                        [StageRecord(ProviderStage, false, NoProviderRegistered, ProviderRegistry)]))
                   && e.decisionID == b.decisionID && result == None
                   && out == Outcome(DecisionRecord(Deny, NoProviderAtExecute, ProviderRegistry, b.decisionID,
                                                    req.requestID), e, [])
                 else
                   && result == (if b.generation.Generated? then Some(b.generation.hash) else None)
                   && TellsEnd(e, req, admitted.decision.decisionID, b, admitted, out)
    {
      out := admitted;
      var cur := exec.CurrentState(req.intentID);
      var _ := exec.Transition(req.intentID, cur, Running);

      if req.modelRef.providerID !in providers {
        out := Record(req, Deny, NoProviderAtExecute, ProviderRegistry,
                      [StageRecord(ProviderStage, false, NoProviderRegistered, ProviderRegistry)], [], b);
        return out, None;
      }
      match b.generation
      case Generated(hash) =>
        var _ := ledger.WriteExecution(req, out.decision.decisionID, hash, b.now, b.replayID);
        return out, Some(hash);
      case TimedOut =>
        out := Record(req, Deny, ExecutionTimedOut, ProviderExecution,
                      [StageRecord(ProviderStage, false, ExecutionTimedOut, ProviderExecution)], [], b);
        return out, None;
      case Failed(why) =>
        out := Record(req, Deny, ExecutionFailed, ProviderExecution,
                      [StageRecord(ProviderStage, false, AdapterSays(why), ProviderExecution)], [], b);
        return out, None;
    }
  }

  /** An operator request that passed authorisation. */
  datatype OperatorRequest = OperatorRequest(intentID: string, operatorID: string, action: OperatorAction)

  predicate Acceptable(or: OperatorRequest) {
    or.intentID != "" && or.operatorID != "" && (or.action.Correct? ==> or.action.directive != "")
  }

  function ForcedState(action: OperatorAction): ExecState {
    if action.Terminate? then Terminated else Halted
  }

  function ActionReason(action: OperatorAction): Reason {
    match action
    case Interrupt => OperatorInterrupt
    case Correct(d) => OperatorCorrection(d)
    case Terminate => OperatorTermination
  }

  /** The request `operatorLedger` writes its entry for. */
  function OperatorLedgerRequest(intentID: string): Request {
    Request("operator", "operator", "", Capability("", "", "", ""), intentID, "", ModelRef("", "", ""), "")
  }

  function OperatorDraft(action: OperatorAction, intentID: string, a: Ambient): Entry {
    DecisionDraft(OperatorLedgerRequest(intentID), false, Deny, ActionReason(action), Lambda6, a.decisionID,
                  [StageRecord(OperatorCorrigibility, false, ActionReason(action), Lambda6)], a.replayID)
  }

  /** The entry tells this order on this intent. */
  ghost predicate RecordsOrder(e: Entry, action: OperatorAction, intentID: string) {
    && e.requestID == "operator" && e.tenantID == "operator" && e.intentID == intentID
    && e.lane == "" && e.capability == Capability("", "", "", "") && e.provider == "" && e.executionHash == ""
    && !e.admitted && e.result == Deny && e.rule == Lambda6
    && e.reason == (match action
                    case Interrupt => OperatorInterrupt
                    case Correct(directive) => OperatorCorrection(directive)
                    case Terminate => OperatorTermination)
    && e.stageLog == [StageRecord(OperatorCorrigibility, false, e.reason, Lambda6)]
  }

  /** The interrupt, correct and terminate handlers: set the flag, force the state, ledger the order. */
  method HandleOperator(r: Router, or: OperatorRequest, a: Ambient) returns (accepted: bool)
    requires r.Valid()
    modifies r.interrupts, r.exec, r.ledger
    ensures accepted == Acceptable(or)
    ensures accepted <==> or.intentID != "" && or.operatorID != "" && or.action != Correct("")
    ensures !accepted ==> unchanged(r.interrupts) && unchanged(r.exec) && unchanged(r.ledger)
    ensures accepted ==>
              && r.interrupts.State() == WithAction(old(r.interrupts.State()), or.action, or.intentID)
              && r.exec.states == old(r.exec.states)[or.intentID := ForcedState(or.action)]
              && r.ledger.State() == Appended(r.ledger.hash, old(r.ledger.State()),
                                              OperatorDraft(or.action, or.intentID, a), a.now)
    // One flag of one intent is set, and every other is as before.
    ensures accepted ==> forall i ::
              SetsOnly(old(r.interrupts.State()), r.interrupts.State(), or.action, or.intentID, i)
    ensures accepted ==>
              && |r.ledger.entries| == old(|r.ledger.entries|) + 1
              && r.ledger.entries[..old(|r.ledger.entries|)] == old(r.ledger.entries)
              && RecordsOrder(r.ledger.entries[old(|r.ledger.entries|)], or.action, or.intentID)
              && CarriesStep(r.ledger.entries[old(|r.ledger.entries|)], a)
    // The next admission of the intent, run alone on a sound ledger, gives the error of the order.
    ensures accepted && old(WellFormed(r.ledger.hash, r.ledger.State())) ==> forall req: Request, answer ::
              req.intentID == or.intentID ==>
                var v := Decision(r.tenants, r.lattice, req, r.WorldOf(req, answer));
                && (or.action.Terminate? ==> v.err == ErrTerminated && v.reason == OperatorTermination)
                && (or.action.Interrupt? && or.intentID !in old(r.interrupts.terminate) ==>
                      v.err == ErrInterrupted && v.reason == OperatorInterruption)
    // From here on a sequential admission of this intent is refused under Lambda.6 unless an earlier gate refuses it.
    ensures accepted ==> forall req: Request, answer :: req.intentID == or.intentID ==>
              Decision(r.tenants, r.lattice, req, r.WorldOf(req, answer)).result != Admit
  {
    if or.intentID == "" || or.operatorID == "" || or.action == Correct("") {
      return false;
    }
    ghost var f, es := r.interrupts.State(), r.ledger.entries;
    StampedOrder(r.ledger.hash, r.ledger.State(), or.action, or.intentID, a);
    CarryOut(r, or, a);
    accepted := true;
    forall i ensures SetsOnly(f, r.interrupts.State(), or.action, or.intentID, i) {
      ActionSetsOnly(f, or.action, or.intentID, i);
    }
    forall req: Request, answer | req.intentID == or.intentID
      ensures OrderTells(Decision(r.tenants, r.lattice, req, r.WorldOf(req, answer)), r.WorldOf(req, answer))
    {
      OrderedDecision(r.tenants, r.lattice, req, r.WorldOf(req, answer));
    }
  }

  /** The effects of the three handlers, in their order. */
  method CarryOut(r: Router, or: OperatorRequest, a: Ambient)
    modifies r.interrupts, r.exec, r.ledger
    ensures r.interrupts.State() == WithAction(old(r.interrupts.State()), or.action, or.intentID)
    ensures r.exec.states == old(r.exec.states)[or.intentID := ForcedState(or.action)]
    ensures r.ledger.State() == Appended(r.ledger.hash, old(r.ledger.State()),
                                         OperatorDraft(or.action, or.intentID, a), a.now)
    ensures old(WellFormed(r.ledger.hash, r.ledger.State())) ==> Linked(r.ledger.entries)
  {
    match or.action {
      case Interrupt =>
        r.interrupts.SetInterrupt(or.intentID);
        r.exec.Forcibly(or.intentID, Halted);
        OperatorLedger(r, or.intentID, OperatorInterrupt, a);
      case Correct(directive) =>
        r.interrupts.SetCorrection(or.intentID, directive);
        r.exec.Forcibly(or.intentID, Halted);
        OperatorLedger(r, or.intentID, OperatorCorrection(directive), a);
      case Terminate =>
        r.interrupts.SetTermination(or.intentID);
        r.exec.Forcibly(or.intentID, Terminated);
        OperatorLedger(r, or.intentID, OperatorTermination, a);
    }
  }

  /** `operatorLedger`. */
  method OperatorLedger(r: Router, intentID: string, reason: Reason, a: Ambient)
    modifies r.ledger
    ensures r.ledger.State() == Appended(r.ledger.hash, old(r.ledger.State()),
              DecisionDraft(OperatorLedgerRequest(intentID), false, Deny, reason, Lambda6, a.decisionID,
                            [StageRecord(OperatorCorrigibility, false, reason, Lambda6)], a.replayID), a.now)
    ensures old(WellFormed(r.ledger.hash, r.ledger.State())) ==> Linked(r.ledger.entries)
  {
    var _ := r.ledger.WriteDecision(
      Request("operator", "operator", "", Capability("", "", "", ""), intentID, "", ModelRef("", "", ""), ""),
      false, Deny, reason, Lambda6, a.decisionID, [StageRecord(OperatorCorrigibility, false, reason, Lambda6)],
      a.now, a.replayID);
  }

  lemma StampedOrder(h: Entry -> string, ledger: LedgerState, action: OperatorAction, intentID: string, a: Ambient)
    ensures var e := Stamp(h, ledger, OperatorDraft(action, intentID, a), a.now);
            RecordsOrder(e, action, intentID) && CarriesStep(e, a)
  {
  }

  /** An order in force is told by the decision. */
  ghost predicate OrderTells(v: Verdict, w: World) {
    && (w.terminated || w.interrupted || w.correction.Some? ==> v.result != Admit)
    && (w.ledgerOk && w.terminated ==> v.err == ErrTerminated && v.reason == OperatorTermination)
    && (w.ledgerOk && !w.terminated && w.interrupted ==> v.err == ErrInterrupted && v.reason == OperatorInterruption)
  }

  lemma OrderedDecision(tenants: seq<TenantPolicy>, lattice: seq<Grant>, req: Request, w: World)
    ensures OrderTells(Decision(tenants, lattice, req, w), w)
  {
    FirstGates(tenants, lattice, req, w);
    if Decision(tenants, lattice, req, w).result == Admit {
      AdmittedMeans(tenants, lattice, req, w);
    }
  }
}
