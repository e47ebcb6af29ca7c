/** What every step of the interleaved router keeps. */
module Invariants {
  import opened Types
  import opened Ledgers
  import opened Stores
  import opened Usl
  import opened Gre
  import opened Admission
  import opened Routing
  import opened Protocol

  // ---- What only grows ---------------------------------------------------------------------

  /** The stores after more events: the ledger is extended, orders and providers are only added. */
  ghost predicate Grows(sh: Shared, sh': Shared) {
    && sh.ledger.entries <= sh'.ledger.entries
    && FlagsWithin(sh.flags, sh'.flags)
    && sh.providers <= sh'.providers
  }

  lemma ExecGrows(cfg: Cfg, s: State, ev: Event)
    ensures Grows(s.shared, Exec(cfg, s, ev).shared)
    ensures |s.procs| <= |Exec(cfg, s, ev).procs|
  {
  }

  lemma ExecAppends(cfg: Cfg, s: State, ev: Event)
    ensures |Exec(cfg, s, ev).shared.ledger.entries| == |s.shared.ledger.entries| + |AuthorAt(s, ev)|
  {
  }

  lemma {:induction false} RunGrows(cfg: Cfg, s: State, evs: seq<Event>)
    ensures Grows(s.shared, Run(cfg, s, evs).shared)
    ensures |s.procs| <= |Run(cfg, s, evs).procs|
    ensures |Run(cfg, s, evs).shared.ledger.entries| == |s.shared.ledger.entries| + |Authors(cfg, s, evs)|
  {
    if evs != [] {
      RunGrows(cfg, s, evs[..|evs| - 1]);
      ExecAppends(cfg, Run(cfg, s, evs[..|evs| - 1]), evs[|evs| - 1]);
      ExecGrows(cfg, Run(cfg, s, evs[..|evs| - 1]), evs[|evs| - 1]);
    }
  }

  // ---- Shape of what a call is about to write ------------------------------------------------

  /** A refusal's evidence: one failed stage record, the last, under the refusal's own rule. */
  ghost predicate FailsLast(log: seq<StageRecord>, rule: RuleRef) {
    && |log| > 0
    && !log[|log| - 1].passed && log[|log| - 1].rule == rule
    && forall j :: 0 <= j < |log| - 1 ==> log[j].passed
  }

  ghost predicate RefusalOk(v: Verdict) {
    && v.result != Admit
    && v.rule != NoRule
    && (v.rule != LedgerIntegrity ==> FailsLast(v.log, v.rule))
  }

  /** The audit invariant of one ledger entry. */
  ghost predicate AuditOk(e: Entry) {
    && (e.admitted <==> e.result == Admit)
    && e.rule != NoRule
    && (!e.admitted && e.rule != LedgerIntegrity ==> FailsLast(e.stageLog, e.rule))
  }

  ghost predicate AfterAdmit(pc: Pc) {
    match pc
    case FinalTerminated | FinalCorrection | FinalInterrupted(_) | ReadCurrent | MarkRunning(_) => true
    case LookupAgain | StartGenerate | Await | ForceStop(_, _) | WriteLate(_) => true
    case Done(end) => !end.Refused?
    case _ => false
  }

  /** Facts about a call that no other process can disturb. */
  ghost predicate LocalOk(p: Proc) {
    p.Call? ==>
      && (AfterAdmit(p.pc) <==> p.out.Some?)
      && match p.pc
         case VerifyLedger | ReadTerminated | ReadInterrupted => p.log == []
         case Pipeline(k) => k < 9 && k != 5 && p.log == PASSED[..k]
         case StageTerminated | StageInterrupted | StageCorrection => p.log == PASSED[..5]
         case ForceRefuse(st, v) => st.IsTerminal() && RefusalOk(v)
         case WriteRefusal(v) => RefusalOk(v)
         case ForceStop(st, _) => st.IsTerminal()
         case WriteLate(v) => RefusalOk(v)
         case Done(end) => end.Refused? ==> RefusalOk(end.v)
         case _ => p.log == PASSED
  }

  lemma PassedPrefix(k: nat)
    requires k <= 9
    ensures forall j :: 0 <= j < k ==> PASSED[..k][j].passed
    ensures k < 9 ==> PASSED[..k] + [PASSED[k]] == PASSED[..k + 1]
    ensures PASSED[..9] == PASSED
  {
  }

  /** The record of the stage a call is at: what the pipeline promises when it passes, a named rule when not. */
  ghost predicate FindingsOk(p: Proc, f: Findings) {
    p.Call? && p.pc.Pipeline? && p.pc.k < 9 ==>
      f.checked.rule != NoRule && (f.checked.passed ==> f.checked == PASSED[p.pc.k])
  }

  lemma FindingsAreOk(cfg: Cfg, sh: Shared, p: Proc)
    requires p.Call?
    ensures FindingsOk(p, FindingsOf(cfg, sh, p))
  {
    if p.pc.Pipeline? && p.pc.k < 9 {
      StageLogsItself(p.pc.k, StageInput(p.req, cfg.tenants, cfg.lattice, sh.drift, NO_FLAGS));
    }
  }

  ghost predicate InPipeline(pc: Pc) {
    pc.Pipeline? || pc.StageTerminated? || pc.StageInterrupted? || pc.StageCorrection?
  }

  lemma StageKeepsLocal(cfg: Cfg, sh: Shared, f: Findings, p: Proc, a: Ambient)
    requires p.Call? && LocalOk(p) && FindingsOk(p, f)
    requires InPipeline(p.pc)
    ensures LocalOk(NextCall(cfg, sh, f, p, a))
  {
    PassedPrefix(if p.pc.Pipeline? then p.pc.k else 5);
  }

  /** Steps of `Admit` outside the pipeline: before it, and the refusals. */
  lemma OpeningKeepsLocal(cfg: Cfg, sh: Shared, f: Findings, p: Proc, a: Ambient)
    requires p.Call? && LocalOk(p) && !AfterAdmit(p.pc) && !InPipeline(p.pc) && !AfterPipeline(p.pc)
    ensures LocalOk(NextCall(cfg, sh, f, p, a))
  {
  }

  /** From the end of the pipeline to the ADMIT entry. */
  ghost predicate AfterPipeline(pc: Pc) {
    pc.Lookup? || pc.AskAdapter? || pc.FlightTerminated? || pc.FlightInterrupted? || pc.WriteAdmit?
  }

  lemma GatesKeepLocal(cfg: Cfg, sh: Shared, f: Findings, p: Proc, a: Ambient)
    requires p.Call? && LocalOk(p) && AfterPipeline(p.pc)
    ensures LocalOk(NextCall(cfg, sh, f, p, a))
  {
    PassedPrefix(9);
  }

  lemma AdmitKeepsLocal(cfg: Cfg, sh: Shared, f: Findings, p: Proc, a: Ambient)
    requires p.Call? && LocalOk(p) && !AfterAdmit(p.pc)
    requires !InPipeline(p.pc)
    ensures LocalOk(NextCall(cfg, sh, f, p, a))
  {
    if AfterPipeline(p.pc) {
      GatesKeepLocal(cfg, sh, f, p, a);
    } else {
      OpeningKeepsLocal(cfg, sh, f, p, a);
    }
  }

  lemma ExecuteKeepsLocal(cfg: Cfg, sh: Shared, f: Findings, p: Proc, a: Ambient)
    requires p.Call? && LocalOk(p) && AfterAdmit(p.pc)
    ensures LocalOk(NextCall(cfg, sh, f, p, a))
  {
  }

  lemma NextKeepsLocal(cfg: Cfg, sh: Shared, f: Findings, p: Proc, a: Ambient)
    requires p.Call? && LocalOk(p) && FindingsOk(p, f)
    ensures LocalOk(NextCall(cfg, sh, f, p, a))
  {
    if InPipeline(p.pc) {
      StageKeepsLocal(cfg, sh, f, p, a);
    } else if AfterAdmit(p.pc) {
      ExecuteKeepsLocal(cfg, sh, f, p, a);
    } else {
      AdmitKeepsLocal(cfg, sh, f, p, a);
    }
  }

  /** Whatever a call or an operator writes is auditable. */
  lemma WritesAreAuditable(p: Proc, a: Ambient)
    requires LocalOk(p) && EffectOf(p, a).Write?
    ensures AuditOk(EffectOf(p, a).draft) && ShapeOk(EffectOf(p, a).draft)
  {
  }

  // ---- Process against stores ------------------------------------------------------------------

  ghost predicate HasOrder(f: Flags, i: string) {
    i in f.terminated || i in f.interrupted || i in f.corrected
  }

  /** Forcing state `st` on intent `i` is backed by an order. */
  ghost predicate Backed(f: Flags, i: string, st: ExecState) {
    match st
    case Terminated => i in f.terminated
    case Halted => i in f.interrupted || i in f.corrected
    case _ => false
  }

  /** An ADMIT decision, with the evidence of all nine stages. */
  ghost predicate IsAdmission(e: Entry) {
    && e.admitted && e.result == Admit && e.reason == Admitted && e.rule == UslGate && e.executionHash == ""
    && e.stageLog == PASSED
  }

  ghost predicate IsExecution(e: Entry) {
    e.executionHash != ""
  }

  ghost predicate Stored(es: seq<Entry>, e: Entry) {
    e.index < |es| && es[e.index] == e
  }

  ghost predicate NeedsProvider(pc: Pc) {
    pc.AskAdapter? || pc.FlightTerminated? || pc.FlightInterrupted? || pc.WriteAdmit? || AfterAdmit(pc)
  }

  ghost predicate GenerateStarted(p: Proc) {
    p.Call? && (p.pc.Await? || (p.pc.Done? && (p.pc.end.Executed? || p.pc.end.ExecutionDenied?)))
  }

  /** Facts that tie a process to the stores; all of them survive growth of the stores. */
  ghost predicate ProcOk(sh: Shared, p: Proc) {
    && LocalOk(p)
    && (p.Operator? ==>
          && (p.action.Correct? ==> p.action.directive != "")
          && (p.opPc != SetFlag ==> Backed(sh.flags, p.intentID, ForcedState(p.action))))
    && (p.Call? ==>
          && (p.pc.ForceRefuse? || p.pc.ForceStop? ==> Backed(sh.flags, p.req.intentID, p.pc.st))
          && (p.pc.FinalInterrupted? && p.pc.directive != "" ==> p.req.intentID in sh.flags.corrected)
          && (NeedsProvider(p.pc) ==> p.req.modelRef.providerID in sh.providers)
          && !p.pc.WriteLate? && !(p.pc.Done? && p.pc.end.LateRefused?)
          && (p.pc.Done? && p.pc.end.Stopped? ==> HasOrder(sh.flags, p.req.intentID))
          && (p.out.Some? ==> (p.pc == Done(AdmittedOnly) <==> !p.execute))
          && (p.out.Some? ==>
                && Stored(sh.ledger.entries, p.out.value)
                && IsAdmission(p.out.value) && SameSubject(p.out.value, p.req)))
  }

  /** What a finished execution left in the ledger. */
  ghost predicate EndOk(sh: Shared, p: Proc) {
    p.Call? && p.pc.Done? && p.out.Some? ==>
      && (p.pc.end.Executed? ==>
            var e := p.pc.end.entry;
            && Stored(sh.ledger.entries, e) && IsExecution(e) && p.out.value.index < e.index
            && SameSubject(e, p.req) && IsExecutionOf(e, p.out.value.decisionID, e.executionHash))
      && (p.pc.end.ExecutionDenied? ==>
            var e := p.pc.end.entry;
            && Stored(sh.ledger.entries, e) && !IsExecution(e) && p.out.value.index < e.index
            && !p.pc.end.how.Generated? && EndsGenerate(e, p.req, p.out.value.decisionID, p.pc.end.how))
  }

  lemma ProcOkStable(sh: Shared, sh': Shared, p: Proc)
    requires Grows(sh, sh') && ProcOk(sh, p) && EndOk(sh, p)
    ensures ProcOk(sh', p) && EndOk(sh', p)
  {
  }

  lemma OperatorStepOk(cfg: Cfg, sh: Shared, p: Proc, a: Ambient)
    requires p.Operator? && ProcOk(sh, p)
    ensures ProcOk(Apply(cfg, sh, EffectOf(p, a), a.now), Next(cfg, sh, p, a))
  {
  }

  /** Where a stamped entry lands. */
  lemma StampIsStored(cfg: Cfg, sh: Shared, draft: Entry, now: int)
    requires CacheOk(sh.ledger)
    ensures var e := Stamp(cfg.hash, sh.ledger, draft, now);
            Stored(Appended(cfg.hash, sh.ledger, draft, now).entries, e) && e.index == |sh.ledger.entries|
  {
  }

  lemma AdmitStepOk(cfg: Cfg, sh: Shared, f: Findings, p: Proc, a: Ambient)
    requires p.Call? && p.pc.WriteAdmit? && ProcOk(sh, p) && CacheOk(sh.ledger)
    ensures ProcOk(Apply(cfg, sh, EffectOf(p, a), a.now), NextCall(cfg, sh, f, p, a))
    ensures EndOk(Apply(cfg, sh, EffectOf(p, a), a.now), NextCall(cfg, sh, f, p, a))
  {
    GatesKeepLocal(cfg, sh, f, p, a);
    StampIsStored(cfg, sh, EffectOf(p, a).draft, a.now);
  }

  lemma AwaitProcOk(cfg: Cfg, sh: Shared, f: Findings, p: Proc, a: Ambient)
    requires p.Call? && p.pc.Await? && ProcOk(sh, p)
    ensures ProcOk(Apply(cfg, sh, EffectOf(p, a), a.now), NextCall(cfg, sh, f, p, a))
  {
    ExecuteKeepsLocal(cfg, sh, f, p, a);
  }

  /** A call that has ended its Generate, from the entry that tells so. */
  lemma GenerateEndOk(sh: Shared, p: Proc, e: Entry, g: Generation)
    requires p.Call? && p.out.Some? && p.pc == Done(if g.Generated? then Executed(e) else ExecutionDenied(g, e))
    requires Stored(sh.ledger.entries, e) && p.out.value.index < e.index
    requires EndsGenerate(e, p.req, p.out.value.decisionID, g)
    ensures EndOk(sh, p)
  {
  }

  lemma AwaitEndOk(cfg: Cfg, sh: Shared, f: Findings, p: Proc, a: Ambient)
    requires p.Call? && p.pc.Await? && p.out.Some? && Stored(sh.ledger.entries, p.out.value) && CacheOk(sh.ledger)
    ensures EndOk(Apply(cfg, sh, EffectOf(p, a), a.now), NextCall(cfg, sh, f, p, a))
  {
    var draft := GenerationEntry(p.req, p.out.value.decisionID, a);
    StampIsStored(cfg, sh, draft, a.now);
    StampedGeneration(cfg.hash, sh.ledger, p.req, p.out.value.decisionID, a);
    GenerateEndOk(Apply(cfg, sh, EffectOf(p, a), a.now), NextCall(cfg, sh, f, p, a),
                  Stamp(cfg.hash, sh.ledger, draft, a.now), a.generation);
  }

  lemma AwaitStepOk(cfg: Cfg, sh: Shared, f: Findings, p: Proc, a: Ambient)
    requires p.Call? && p.pc.Await? && ProcOk(sh, p) && CacheOk(sh.ledger)
    ensures ProcOk(Apply(cfg, sh, EffectOf(p, a), a.now), NextCall(cfg, sh, f, p, a))
    ensures EndOk(Apply(cfg, sh, EffectOf(p, a), a.now), NextCall(cfg, sh, f, p, a))
  {
    AwaitProcOk(cfg, sh, f, p, a);
    AwaitEndOk(cfg, sh, f, p, a);
  }

  lemma WriteStepOk(cfg: Cfg, sh: Shared, f: Findings, p: Proc, a: Ambient)
    requires p.Call? && FindingsOk(p, f) && EffectOf(p, a).Write? && ProcOk(sh, p) && CacheOk(sh.ledger)
    ensures ProcOk(Apply(cfg, sh, EffectOf(p, a), a.now), NextCall(cfg, sh, f, p, a))
    ensures EndOk(Apply(cfg, sh, EffectOf(p, a), a.now), NextCall(cfg, sh, f, p, a))
  {
    if p.pc.WriteAdmit? {
      AdmitStepOk(cfg, sh, f, p, a);
    } else if p.pc.Await? {
      AwaitStepOk(cfg, sh, f, p, a);
    } else {
      NextKeepsLocal(cfg, sh, f, p, a);
      assert p.pc.WriteRefusal?;
    }
  }

  lemma StageStepOk(cfg: Cfg, sh: Shared, f: Findings, p: Proc, a: Ambient)
    requires p.Call? && FindingsOk(p, f) && InPipeline(p.pc) && ProcOk(sh, p)
    ensures EffectOf(p, a).Nothing?
    ensures ProcOk(Apply(cfg, sh, EffectOf(p, a), a.now), NextCall(cfg, sh, f, p, a))
    ensures EndOk(Apply(cfg, sh, EffectOf(p, a), a.now), NextCall(cfg, sh, f, p, a))
  {
    NextKeepsLocal(cfg, sh, f, p, a);
    assert NextCall(cfg, sh, f, p, a).out.None?;
  }

  lemma GateStepOk(cfg: Cfg, sh: Shared, f: Findings, p: Proc, a: Ambient)
    requires p.Call? && FindingsOk(p, f) && ProcOk(sh, p) && AfterPipeline(p.pc) && !EffectOf(p, a).Write?
    ensures ProcOk(Apply(cfg, sh, EffectOf(p, a), a.now), NextCall(cfg, sh, f, p, a))
    ensures NextCall(cfg, sh, f, p, a).out.None?
  {
    GatesKeepLocal(cfg, sh, f, p, a);
  }

  lemma QuietAdmitStepOk(cfg: Cfg, sh: Shared, f: Findings, p: Proc, a: Ambient)
    requires p.Call? && FindingsOk(p, f) && ProcOk(sh, p)
    requires !AfterAdmit(p.pc) && !InPipeline(p.pc) && !EffectOf(p, a).Write?
    ensures ProcOk(Apply(cfg, sh, EffectOf(p, a), a.now), NextCall(cfg, sh, f, p, a))
    ensures EndOk(Apply(cfg, sh, EffectOf(p, a), a.now), NextCall(cfg, sh, f, p, a))
  {
    if AfterPipeline(p.pc) {
      GateStepOk(cfg, sh, f, p, a);
    } else {
      OpeningKeepsLocal(cfg, sh, f, p, a);
    }
    assert NextCall(cfg, sh, f, p, a).out.None?;
  }

  lemma QuietExecuteStepOk(cfg: Cfg, sh: Shared, f: Findings, p: Proc, a: Ambient)
    requires p.Call? && FindingsOk(p, f) && AfterAdmit(p.pc) && !EffectOf(p, a).Write? && ProcOk(sh, p) && EndOk(sh, p)
    ensures ProcOk(Apply(cfg, sh, EffectOf(p, a), a.now), NextCall(cfg, sh, f, p, a))
    ensures EndOk(Apply(cfg, sh, EffectOf(p, a), a.now), NextCall(cfg, sh, f, p, a))
  {
    NextKeepsLocal(cfg, sh, f, p, a);
    assert Apply(cfg, sh, EffectOf(p, a), a.now).ledger == sh.ledger;
  }

  lemma StepOk(cfg: Cfg, sh: Shared, p: Proc, a: Ambient)
    requires ProcOk(sh, p) && EndOk(sh, p) && CacheOk(sh.ledger)
    ensures ProcOk(Apply(cfg, sh, EffectOf(p, a), a.now), Next(cfg, sh, p, a))
    ensures EndOk(Apply(cfg, sh, EffectOf(p, a), a.now), Next(cfg, sh, p, a))
  {
    if p.Operator? {
      OperatorStepOk(cfg, sh, p, a);
    } else {
      var f := FindingsOf(cfg, sh, p);
      FindingsAreOk(cfg, sh, p);
      if EffectOf(p, a).Write? { WriteStepOk(cfg, sh, f, p, a); }
      else if AfterAdmit(p.pc) { QuietExecuteStepOk(cfg, sh, f, p, a); }
      else if InPipeline(p.pc) { StageStepOk(cfg, sh, f, p, a); }
      else { QuietAdmitStepOk(cfg, sh, f, p, a); }
    }
  }

  // ---- Execution states ---------------------------------------------------------------------------

  /** Execution states follow operator orders; ADMITTED and RUNNING never occur. */
  ghost predicate ExecBacked(sh: Shared) {
    forall i :: i in sh.exec ==> Backed(sh.flags, i, sh.exec[i])
  }

  ghost predicate DirectivesNonEmpty(sh: Shared) {
    forall i :: i in sh.flags.corrected ==> sh.flags.corrected[i] != ""
  }

  lemma StepKeepsExec(cfg: Cfg, sh: Shared, p: Proc, a: Ambient)
    requires ProcOk(sh, p) && ExecBacked(sh) && DirectivesNonEmpty(sh)
    ensures ExecBacked(Apply(cfg, sh, EffectOf(p, a), a.now))
    ensures DirectivesNonEmpty(Apply(cfg, sh, EffectOf(p, a), a.now))
  {
  }

  // ---- The ledger -----------------------------------------------------------------------------------

  /** `e` admits what `x` is about, under the same decision. */
  ghost predicate Licenses(e: Entry, x: Entry) {
    && IsAdmission(e) && e.decisionID == x.decisionID && e.requestID == x.requestID && e.intentID == x.intentID
    && e.tenantID == x.tenantID && e.lane == x.lane && e.capability == x.capability && e.provider == x.provider
  }

  /** Entry `j` follows an admission of the same decision and subject. */
  ghost predicate AdmittedBefore(es: seq<Entry>, j: nat)
    requires j < |es|
  {
    exists k: nat :: k < j && Licenses(es[k], es[j])
  }

  /** An execution entry says so in every field. */
  ghost predicate ShapeOk(e: Entry) {
    IsExecution(e) ==> IsExecutionOf(e, e.decisionID, e.executionHash)
  }

  ghost predicate LedgerOk(es: seq<Entry>) {
    forall j :: 0 <= j < |es| ==> AuditOk(es[j]) && ShapeOk(es[j]) && (IsExecution(es[j]) ==> AdmittedBefore(es, j))
  }

  lemma AdmittedBeforeGrows(es: seq<Entry>, e: Entry, j: nat)
    requires j < |es| && AdmittedBefore(es, j)
    ensures AdmittedBefore(es + [e], j)
  {
    var k: nat :| k < j && Licenses(es[k], es[j]);
    assert (es + [e])[k] == es[k];
  }

  lemma LedgerOkGrows(es: seq<Entry>, e: Entry)
    requires LedgerOk(es) && AuditOk(e) && ShapeOk(e)
    requires IsExecution(e) ==> AdmittedBefore(es + [e], |es|)
    ensures LedgerOk(es + [e])
  {
    var t := es + [e];
    forall j | 0 <= j < |t| ensures AuditOk(t[j]) && ShapeOk(t[j]) && (IsExecution(t[j]) ==> AdmittedBefore(t, j)) {
      if j < |es| {
        assert t[j] == es[j] && AuditOk(es[j]);
        if IsExecution(es[j]) {
          AdmittedBeforeGrows(es, e, j);
        }
      }
    }
  }

  /** The stamp changes nothing that an audit looks at. */
  lemma StampKeepsAudit(h: Entry -> string, ledger: LedgerState, draft: Entry, now: int)
    ensures var e := Stamp(h, ledger, draft, now);
            && (AuditOk(draft) ==> AuditOk(e)) && (ShapeOk(draft) ==> ShapeOk(e))
            && (IsExecution(e) <==> IsExecution(draft))
  {
  }

  lemma StepKeepsWellFormed(cfg: Cfg, sh: Shared, p: Proc, a: Ambient)
    requires WellFormed(cfg.hash, sh.ledger)
    ensures WellFormed(cfg.hash, Apply(cfg, sh, EffectOf(p, a), a.now).ledger)
  {
    if EffectOf(p, a).Write? {
      AppendKeepsWellFormed(cfg.hash, sh.ledger, EffectOf(p, a).draft, a.now);
    }
  }

  lemma StepKeepsLedger(cfg: Cfg, sh: Shared, p: Proc, a: Ambient)
    requires ProcOk(sh, p) && LedgerOk(sh.ledger.entries)
    ensures LedgerOk(Apply(cfg, sh, EffectOf(p, a), a.now).ledger.entries)
  {
    if EffectOf(p, a).Write? {
      WriteKeepsLedger(cfg, sh, p, a);
    }
  }

  lemma WriteKeepsLedger(cfg: Cfg, sh: Shared, p: Proc, a: Ambient)
    requires ProcOk(sh, p) && LedgerOk(sh.ledger.entries) && EffectOf(p, a).Write?
    ensures LedgerOk(sh.ledger.entries + [Stamp(cfg.hash, sh.ledger, EffectOf(p, a).draft, a.now)])
  {
    var draft := EffectOf(p, a).draft;
    WritesAreAuditable(p, a);
    StampKeepsAudit(cfg.hash, sh.ledger, draft, a.now);
    if IsExecution(draft) {
      ExecutionFollowsAdmission(cfg, sh, p, a);
    }
    LedgerOkGrows(sh.ledger.entries, Stamp(cfg.hash, sh.ledger, draft, a.now));
  }

  lemma ExecutionFollowsAdmission(cfg: Cfg, sh: Shared, p: Proc, a: Ambient)
    requires ProcOk(sh, p) && EffectOf(p, a).Write? && IsExecution(EffectOf(p, a).draft)
    ensures p.Call? && p.pc.Await? && p.out.Some?
    ensures AdmittedBefore(sh.ledger.entries + [Stamp(cfg.hash, sh.ledger, EffectOf(p, a).draft, a.now)],
                           |sh.ledger.entries|)
  {
    var es := sh.ledger.entries;
    var t := es + [Stamp(cfg.hash, sh.ledger, EffectOf(p, a).draft, a.now)];
    var k := p.out.value.index;
    assert t[k] == es[k] == p.out.value;
  }

  // ---- The invariant ------------------------------------------------------------------------------------

  ghost predicate Inv(cfg: Cfg, s: State) {
    && WellFormed(cfg.hash, s.shared.ledger)
    && LedgerOk(s.shared.ledger.entries)
    && ExecBacked(s.shared) && DirectivesNonEmpty(s.shared)
    && forall q :: 0 <= q < |s.procs| ==> ProcOk(s.shared, s.procs[q]) && EndOk(s.shared, s.procs[q])
  }

  lemma OthersStayOk(s: State, sh': Shared, q: nat)
    requires q < |s.procs| && ProcOk(s.shared, s.procs[q]) && EndOk(s.shared, s.procs[q]) && Grows(s.shared, sh')
    ensures ProcOk(sh', s.procs[q]) && EndOk(sh', s.procs[q])
  {
    ProcOkStable(s.shared, sh', s.procs[q]);
  }

  lemma StepKeepsInv(cfg: Cfg, s: State, pid: nat, a: Ambient)
    requires Inv(cfg, s) && pid < |s.procs|
    ensures Inv(cfg, Exec(cfg, s, Step(pid, a)))
  {
    var p, s' := s.procs[pid], Exec(cfg, s, Step(pid, a));
    ExecGrows(cfg, s, Step(pid, a));
    StepOk(cfg, s.shared, p, a);
    StepKeepsExec(cfg, s.shared, p, a);
    StepKeepsLedger(cfg, s.shared, p, a);
    StepKeepsWellFormed(cfg, s.shared, p, a);
    forall q | 0 <= q < |s'.procs| ensures ProcOk(s'.shared, s'.procs[q]) && EndOk(s'.shared, s'.procs[q]) {
      if q != pid {
        OthersStayOk(s, s'.shared, q);
      }
    }
  }

  lemma ExecKeepsInv(cfg: Cfg, s: State, ev: Event)
    requires Inv(cfg, s)
    ensures Inv(cfg, Exec(cfg, s, ev))
  {
    if ev.Step? {
      if ev.pid < |s.procs| {
        StepKeepsInv(cfg, s, ev.pid, ev.a);
      }
    } else {
      var s' := Exec(cfg, s, ev);
      ExecGrows(cfg, s, ev);
      forall q | 0 <= q < |s.procs| ensures ProcOk(s'.shared, s.procs[q]) && EndOk(s'.shared, s.procs[q]) {
        OthersStayOk(s, s'.shared, q);
      }
    }
  }

  lemma {:induction false} RunKeepsInv(cfg: Cfg, s: State, evs: seq<Event>)
    requires Inv(cfg, s)
    ensures Inv(cfg, Run(cfg, s, evs))
  {
    if evs != [] {
      RunKeepsInv(cfg, s, evs[..|evs| - 1]);
      ExecKeepsInv(cfg, Run(cfg, s, evs[..|evs| - 1]), evs[|evs| - 1]);
    }
  }

  lemma InitInv(cfg: Cfg)
    ensures Inv(cfg, INIT)
  {
  }
}
