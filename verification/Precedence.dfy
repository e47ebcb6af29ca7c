/** Admission under every interleaving: which orders keep the ADMIT entry from being written, which come too late, and
    what every admitted request has passed. */
module Precedence {
  import opened Types
  import opened Ledgers
  import opened Stores
  import opened Usl
  import opened Gre
  import opened Admission
  import opened Routing
  import opened Protocol
  import opened Invariants
  import opened Theorems
  import opened Counting
  import opened Isolation
  import Configs
  import Workflows

  /** The call has left `Admit`. */
  ghost predicate LeftAdmit(p: Proc) {
    p.Call? && (p.pc.Done? || AfterAdmit(p.pc))
  }

  /** The call is in `Admit` and nothing has refused it yet. */
  ghost predicate InAdmit(p: Proc) {
    p.Call? && Remaining(p) >= 9
  }

  // ---- Orders in time --------------------------------------------------------------------------------

  /** `Admit` has still to make its last read of this kind of order: lines 165 and 174 for terminations and
      interrupts, stage 6 for corrections. */
  ghost predicate ReadAhead(action: OperatorAction, p: Proc) {
    match action
    case Terminate => Remaining(p) >= 11
    case Interrupt => Remaining(p) >= 10
    case Correct(_) => StageSixAhead(p)
  }

  /** An order on the call's intent is in force before the last read of its kind. */
  ghost predicate OrderBeforeRead(f: Flags, p: Proc)
    requires p.Call?
  {
    var i := p.req.intentID;
    || (i in f.terminated && ReadAhead(Terminate, p))
    || (i in f.interrupted && ReadAhead(Interrupt, p))
    || (i in f.corrected && StageSixAhead(p))
  }

  /** `Admit` refuses the call, or has refused it. */
  ghost predicate WillRefuse(f: Flags, p: Proc) {
    && p.Call? && p.out.None?
    && (OrderBeforeRead(f, p) || p.pc.ForceRefuse? || p.pc.WriteRefusal? || p.pc.Done?)
  }

  lemma StepKeepsWillRefuse(cfg: Cfg, sh: Shared, f: Findings, p: Proc, a: Ambient)
    requires LocalOk(p) && WillRefuse(sh.flags, p)
    ensures WillRefuse(sh.flags, NextCall(cfg, sh, f, p, a))
  {
  }

  lemma ExecKeepsWillRefuse(cfg: Cfg, s: State, ev: Event, q: nat)
    requires Inv(cfg, s) && q < |s.procs| && WillRefuse(s.shared.flags, s.procs[q])
    ensures q < |Exec(cfg, s, ev).procs|
    ensures WillRefuse(Exec(cfg, s, ev).shared.flags, Exec(cfg, s, ev).procs[q])
  {
    ExecGrows(cfg, s, ev);
    if ev.Step? && ev.pid == q {
      StepKeepsWillRefuse(cfg, s.shared, FindingsOf(cfg, s.shared, s.procs[q]), s.procs[q], ev.a);
    }
  }

  lemma {:induction false} RunKeepsWillRefuse(cfg: Cfg, s: State, evs: seq<Event>, q: nat)
    requires Inv(cfg, s) && q < |s.procs| && WillRefuse(s.shared.flags, s.procs[q])
    ensures q < |Run(cfg, s, evs).procs|
    ensures WillRefuse(Run(cfg, s, evs).shared.flags, Run(cfg, s, evs).procs[q])
  {
    if evs != [] {
      RunKeepsWillRefuse(cfg, s, evs[..|evs| - 1], q);
      RunKeepsInv(cfg, s, evs[..|evs| - 1]);
      ExecKeepsWillRefuse(cfg, Run(cfg, s, evs[..|evs| - 1]), evs[|evs| - 1], q);
    }
  }

  /** None of the entries that the run appended for process `q` is an ADMIT or an execution. */
  ghost predicate WroteNoAdmit(cfg: Cfg, s: State, evs: seq<Event>, q: nat) {
    var es := Run(cfg, s, evs).shared.ledger.entries;
    forall k :: |s.shared.ledger.entries| <= k < |es| && AuthorOf(cfg, s, evs, k) == q ==> !es[k].admitted
  }

  lemma RefusalIsNoAdmit(f: Flags, p: Proc, a: Ambient)
    requires LocalOk(p) && WillRefuse(f, p) && EffectOf(p, a).Write?
    ensures !EffectOf(p, a).draft.admitted
  {
  }

  lemma ExecWritesNoAdmit(cfg: Cfg, s: State, ev: Event, q: nat)
    requires Inv(cfg, s) && q < |s.procs| && WillRefuse(s.shared.flags, s.procs[q]) && AuthorAt(s, ev) == [q]
    ensures var n, es := |s.shared.ledger.entries|, Exec(cfg, s, ev).shared.ledger.entries;
            n < |es| && !es[n].admitted
  {
    assert ProcOk(s.shared, s.procs[q]);
    RefusalIsNoAdmit(s.shared.flags, s.procs[q], ev.a);
    NewEntryIsStamped(cfg, s, ev);
  }

  lemma {:induction false} RefusedRunWritesNoAdmit(cfg: Cfg, s: State, evs: seq<Event>, q: nat)
    requires Inv(cfg, s) && q < |s.procs| && WillRefuse(s.shared.flags, s.procs[q])
    ensures WroteNoAdmit(cfg, s, evs, q)
  {
    if evs != [] {
      var init, ev := evs[..|evs| - 1], evs[|evs| - 1];
      var es := Run(cfg, s, evs).shared.ledger.entries;
      RefusedRunWritesNoAdmit(cfg, s, init, q);
      forall k | |s.shared.ledger.entries| <= k < |es| && AuthorOf(cfg, s, evs, k) == q ensures !es[k].admitted {
        AuthorOfLonger(cfg, s, evs, k);
        if k == |Run(cfg, s, init).shared.ledger.entries| {
          RunKeepsWillRefuse(cfg, s, init, q);
          RunKeepsInv(cfg, s, init);
          ExecWritesNoAdmit(cfg, Run(cfg, s, init), ev, q);
        }
      }
    }
  }

  /** Admission precedence: an order on a request's intent that is in force before the last read of its kind keeps the
      request from being admitted, in every continuation of the run, whatever else is ordered, steered or registered. */
  lemma AdmissionPrecedence(cfg: Cfg, s: State, evs: seq<Event>, q: nat)
    requires Reachable(cfg, s) && q < |s.procs| && s.procs[q].Call? && OrderBeforeRead(s.shared.flags, s.procs[q])
    ensures q < |Run(cfg, s, evs).procs|
    ensures var p := Run(cfg, s, evs).procs[q];
            p.Call? && p.out.None? && !AfterAdmit(p.pc) && (LeftAdmit(p) ==> p.pc.Done? && p.pc.end.Refused?)
    ensures WroteNoAdmit(cfg, s, evs, q)
  {
    ReachableInv(cfg, s);
    assert LocalOk(s.procs[q]);
    OrderRefuses(s.shared.flags, s.procs[q]);
    RunKeepsWillRefuse(cfg, s, evs, q);
    RefusedRunWritesNoAdmit(cfg, s, evs, q);
    RunKeepsInv(cfg, s, evs);
    assert LocalOk(Run(cfg, s, evs).procs[q]);
    StaysOut(Run(cfg, s, evs).procs[q]);
  }

  lemma StaysOut(p: Proc)
    requires p.Call? && LocalOk(p) && p.out.None?
    ensures !AfterAdmit(p.pc) && (LeftAdmit(p) ==> p.pc.Done? && p.pc.end.Refused?)
  {
  }

  /** An order before its read, and so before the ADMIT entry, refuses. */
  lemma OrderRefuses(f: Flags, p: Proc)
    requires p.Call? && LocalOk(p) && OrderBeforeRead(f, p)
    ensures WillRefuse(f, p)
  {
  }

  // ---- What every admitted request has passed --------------------------------------------------------

  /** The gates that are behind a call at this point, all but those that read the stores. */
  ghost function GatesBehind(pc: Pc): nat {
    match pc
    case VerifyLedger | ReadTerminated | ReadInterrupted => 0
    case Pipeline(k) => if k < 9 then BOUND[k] else 0
    case StageTerminated | StageInterrupted | StageCorrection => 12
    case Lookup => 13
    case ForceRefuse(_, _) | WriteRefusal(_) => 0
    case Done(end) => if end.Refused? then 0 else 18
    case _ => 18
  }

  /** In a calm world the request passes every gate that is behind it. */
  ghost predicate Vetted(cfg: Cfg, p: Proc) {
    p.Call? ==> Through(GatesOf(cfg, p.req, CALM), GatesBehind(p.pc))
  }

  /** A stage that passes would pass in a calm world. */
  lemma CalmStagePasses(si: StageInput, k: nat)
    requires k < 9 && Check(STAGES[k], si).passed
    ensures Check(STAGES[k], si.(drift := None, flags := NO_FLAGS)).passed
  {
  }

  lemma PipelineStepVets(cfg: Cfg, sh: Shared, p: Proc, a: Ambient)
    requires p.Call? && LocalOk(p) && Vetted(cfg, p) && p.pc.Pipeline?
    ensures Vetted(cfg, Next(cfg, sh, p, a))
  {
    var k := p.pc.k;
    var si := StageInput(p.req, cfg.tenants, cfg.lattice, sh.drift, NO_FLAGS);
    if Check(STAGES[k], si).passed {
      CalmStagePasses(si, k);
      StageGates(si.(drift := None, flags := NO_FLAGS), CALM, k);
    }
  }

  lemma CalmGates(cfg: Cfg, req: Request)
    ensures var gs := GatesOf(cfg, req, CALM);
            gs[0].ok && gs[1].ok && gs[2].ok && gs[12].ok && gs[16].ok && gs[17].ok
  {
  }

  /** Outside the pipeline's own stages a step gets past no gate, but for three of them. */
  lemma GatesPassedByStep(cfg: Cfg, sh: Shared, f: Findings, p: Proc, a: Ambient)
    requires p.Call? && LocalOk(p) && !p.pc.Pipeline?
    ensures var p' := NextCall(cfg, sh, f, p, a);
            && p'.Call? && p'.req == p.req
            && (|| GatesBehind(p'.pc) <= GatesBehind(p.pc)
                || (p.pc.ReadInterrupted? && GatesBehind(p'.pc) == 3)
                || (p.pc.StageCorrection? && GatesBehind(p'.pc) == 13)
                || (p.pc.Lookup? && f.immune.result.Allow? && GatesBehind(p'.pc) == 18))
  {
  }

  lemma OtherStepVets(cfg: Cfg, sh: Shared, f: Findings, p: Proc, a: Ambient)
    requires p.Call? && LocalOk(p) && Vetted(cfg, p) && !p.pc.Pipeline?
    requires f.immune == ImmuneVerdict(cfg.tenants, p.req)
    ensures Vetted(cfg, NextCall(cfg, sh, f, p, a))
  {
    var n, n' := GatesBehind(p.pc), GatesBehind(NextCall(cfg, sh, f, p, a).pc);
    GatesPassedByStep(cfg, sh, f, p, a);
    if n' > n {
      CalmGates(cfg, p.req);
      if p.pc.Lookup? {
        ImmuneGates(cfg.tenants, cfg.lattice, p.req, CALM);
      }
    }
    assert Through(GatesOf(cfg, p.req, CALM), n');
  }

  ghost predicate AllVetted(cfg: Cfg, s: State) {
    forall q :: 0 <= q < |s.procs| ==> Vetted(cfg, s.procs[q])
  }

  lemma StepVets(cfg: Cfg, sh: Shared, p: Proc, a: Ambient)
    requires LocalOk(p) && Vetted(cfg, p)
    ensures Vetted(cfg, Next(cfg, sh, p, a))
  {
    if p.Call? {
      if p.pc.Pipeline? {
        PipelineStepVets(cfg, sh, p, a);
      } else {
        OtherStepVets(cfg, sh, FindingsOf(cfg, sh, p), p, a);
      }
    }
  }

  lemma ExecKeepsVetted(cfg: Cfg, s: State, ev: Event)
    requires Inv(cfg, s) && AllVetted(cfg, s)
    ensures AllVetted(cfg, Exec(cfg, s, ev))
  {
    var s' := Exec(cfg, s, ev);
    forall q | 0 <= q < |s'.procs| ensures Vetted(cfg, s'.procs[q]) {
      if ev.Step? && ev.pid == q {
        assert ProcOk(s.shared, s.procs[q]);
        StepVets(cfg, s.shared, s.procs[q], ev.a);
      } else if q < |s.procs| {
        OthersUnmoved(cfg, s, ev, q);
      }
    }
  }

  lemma {:induction false} RunVets(cfg: Cfg, evs: seq<Event>)
    ensures AllVetted(cfg, Run(cfg, INIT, evs))
  {
    if evs != [] {
      RunVets(cfg, evs[..|evs| - 1]);
      InitInv(cfg);
      RunKeepsInv(cfg, INIT, evs[..|evs| - 1]);
      ExecKeepsVetted(cfg, Run(cfg, INIT, evs[..|evs| - 1]), evs[|evs| - 1]);
    }
  }

  lemma ReachableVetted(cfg: Cfg, s: State, q: nat)
    requires Reachable(cfg, s) && q < |s.procs|
    ensures Vetted(cfg, s.procs[q]) && LocalOk(s.procs[q])
  {
    var evs :| s == Run(cfg, INIT, evs);
    RunVets(cfg, evs);
    ReachableInv(cfg, s);
  }

  /** Admission is sound under every interleaving: whatever runs beside it, a request is admitted only if the gate
      table admits it when nothing stands against it. */
  lemma AdmissionIsSound(cfg: Cfg, s: State, q: nat)
    requires Reachable(cfg, s) && q < |s.procs| && s.procs[q].Call? && s.procs[q].out.Some?
    ensures DecisionOf(cfg, s.procs[q].req, CALM) == ADMITTED
  {
    ReachableVetted(cfg, s, q);
    AdmittedIffAdmissible(cfg.tenants, cfg.lattice, s.procs[q].req, CALM);
  }

  /** So every entry marked admitted in a reachable ledger is about a request that the gate table admits. */
  lemma AdmittedEntriesAreSound(cfg: Cfg, s: State, j: nat)
    requires Reachable(cfg, s) && j < |s.shared.ledger.entries| && s.shared.ledger.entries[j].admitted
    ensures exists req :: SameSubject(s.shared.ledger.entries[j], req) && DecisionOf(cfg, req, CALM) == ADMITTED
  {
    var evs :| s == Run(cfg, INIT, evs);
    EveryEntryHasOneAuthor(cfg, evs);
    ReachableInv(cfg, s);
    var q := Authors(cfg, INIT, evs)[j];
    assert j in Positions(Authors(cfg, INIT, evs), q);
    AuthorOfAdmitted(s, q, j, Positions(Authors(cfg, INIT, evs), q));
    AdmissionIsSound(cfg, s, q);
  }

  lemma AuthorOfAdmitted(s: State, q: nat, j: nat, mine: set<int>)
    requires q < |s.procs| && ProcOk(s.shared, s.procs[q]) && EndOk(s.shared, s.procs[q])
    requires j in mine && AccountOk(s.shared.ledger.entries, mine, s.procs[q])
    requires j < |s.shared.ledger.entries| && s.shared.ledger.entries[j].admitted && AuditOk(s.shared.ledger.entries[j])
    ensures s.procs[q].Call? && s.procs[q].out.Some? && SameSubject(s.shared.ledger.entries[j], s.procs[q].req)
  {
  }

  /** Not beyond the fourth stage, or refused. */
  ghost predicate InFirstStages(pc: Pc) {
    match pc
    case VerifyLedger | ReadTerminated | ReadInterrupted | ForceRefuse(_, _) | WriteRefusal(_) => true
    case Pipeline(k) => k < 4
    case Done(end) => end.Refused?
    case _ => false
  }

  /** On a built configuration no call with a workflow's capability gets past the fourth stage, in any run: it is never
      admitted and no provider is ever asked. */
  lemma WorkflowsNeverPassStageFour(cfg: Cfg, ts: seq<Configs.LegacyTenant>, s: State, q: nat, id: string)
    requires Configs.IsBuild(ts, cfg.tenants, cfg.lattice) && Workflows.Spec(id).Some?
    requires Reachable(cfg, s) && q < |s.procs| && s.procs[q].Call?
    requires s.procs[q].req.capability == Workflows.Spec(id).value.capability
    ensures s.procs[q].out.None? && InFirstStages(s.procs[q].pc)
  {
    var p := s.procs[q];
    ReachableVetted(cfg, s, q);
    assert p.req.(capability := Workflows.Spec(id).value.capability) == p.req;
    Workflows.WorkflowsStopAtTheLattice(ts, cfg.tenants, cfg.lattice, id, p.req, CALM);
    FewGatesBehind(GatesOf(cfg, p.req, CALM), p);
  }

  lemma FewGatesBehind(gs: seq<Gate>, p: Proc)
    requires p.Call? && LocalOk(p) && Through(gs, GatesBehind(p.pc)) && !Through(gs, 10)
    ensures p.out.None? && InFirstStages(p.pc)
  {
  }

  // ---- Orders that come too late ---------------------------------------------------------------------

  /** The reads of terminations and interrupts that are ahead of the call see none, if `f` are the flags at the end. */
  ghost predicate ReadsClear(f: Flags, p: Proc)
    requires p.Call?
  {
    && (ReadAhead(Terminate, p) ==> p.req.intentID !in f.terminated)
    && (ReadAhead(Interrupt, p) ==> p.req.intentID !in f.interrupted)
  }

  /** If the provider lookup is ahead, the immune step allows the request and its provider is registered. */
  ghost predicate Serviceable(cfg: Cfg, sh: Shared, p: Proc)
    requires p.Call?
  {
    Remaining(p) >= 13 ==>
      ImmuneVerdict(cfg.tenants, p.req).result.Allow? && p.req.modelRef.providerID in sh.providers
  }

  /** The adapter agrees whenever call `q` moves. */
  ghost predicate AdapterAgrees(evs: seq<Event>, q: nat) {
    forall k :: 0 <= k < |evs| && evs[k].Step? && evs[k].pid == q ==> evs[k].a.answer.ok
  }

  /** Stage 6 is behind the call, and nothing that it has still to read speaks against it. */
  ghost predicate PassesThrough(cfg: Cfg, end: Flags, sh: Shared, p: Proc) {
    p.Call? && (AfterAdmit(p.pc) || (InAdmit(p) && !StageSixAhead(p) && ReadsClear(end, p) && Serviceable(cfg, sh, p)))
  }

  lemma LateStagesPass(cfg: Cfg, sh: Shared, p: Proc)
    requires p.Call? && p.pc.Pipeline? && 6 <= p.pc.k < 9 && Vetted(cfg, p)
    ensures FindingsOf(cfg, sh, p).checked.passed
  {
    var gs := GatesOf(cfg, p.req, CALM);
    assert gs[3].ok && gs[4].ok;
  }

  lemma StepPassesThrough(cfg: Cfg, end: Flags, sh: Shared, f: Findings, p: Proc, a: Ambient)
    requires LocalOk(p) && PassesThrough(cfg, end, sh, p) && FlagsWithin(sh.flags, end)
    requires p.pc.Pipeline? ==> f.checked.passed
    requires f.immune == ImmuneVerdict(cfg.tenants, p.req)
    requires p.pc.AskAdapter? ==> a.answer.ok
    ensures PassesThrough(cfg, end, sh, NextCall(cfg, sh, f, p, a))
  {
  }

  lemma ExecPassesThrough(cfg: Cfg, end: Flags, s: State, ev: Event, q: nat)
    requires Reachable(cfg, s) && q < |s.procs| && PassesThrough(cfg, end, s.shared, s.procs[q])
    requires FlagsWithin(s.shared.flags, end)
    requires ev.Step? && ev.pid == q && s.procs[q].pc.AskAdapter? ==> ev.a.answer.ok
    ensures q < |Exec(cfg, s, ev).procs|
    ensures PassesThrough(cfg, end, Exec(cfg, s, ev).shared, Exec(cfg, s, ev).procs[q])
  {
    ExecGrows(cfg, s, ev);
    if ev.Step? && ev.pid == q {
      var p := s.procs[q];
      ReachableVetted(cfg, s, q);
      if p.pc.Pipeline? {
        LateStagesPass(cfg, s.shared, p);
      }
      StepPassesThrough(cfg, end, s.shared, FindingsOf(cfg, s.shared, p), p, ev.a);
    }
  }

  /** If the adapter agrees whenever the call moves, it agrees when it is asked; and it has only to if it still is. */
  lemma {:induction false} AdapterAnswers(cfg: Cfg, s: State, evs: seq<Event>, q: nat)
    requires Reachable(cfg, s) && q < |s.procs| && evs != []
    requires Remaining(s.procs[q]) >= 12 ==> AdapterAgrees(evs, q)
    ensures Remaining(s.procs[q]) >= 12 ==> AdapterAgrees(evs[..|evs| - 1], q)
    ensures var mid, ev := Run(cfg, s, evs[..|evs| - 1]), evs[|evs| - 1];
            && q < |mid.procs|
            && (ev.Step? && ev.pid == q && mid.procs[q].Call? && mid.procs[q].pc.AskAdapter? ==> ev.a.answer.ok)
  {
    var init := evs[..|evs| - 1];
    NeverFurtherAway(cfg, s, init, q);
    if Remaining(s.procs[q]) >= 12 {
      AdapterAgreesBefore(evs, q);
    }
  }

  lemma NeverFurtherAway(cfg: Cfg, s: State, evs: seq<Event>, q: nat)
    requires Reachable(cfg, s) && q < |s.procs|
    ensures q < |Run(cfg, s, evs).procs| && Remaining(Run(cfg, s, evs).procs[q]) <= Remaining(s.procs[q])
  {
    ReachableInv(cfg, s);
    CallComesCloser(cfg, s, evs, q);
  }

  lemma AdapterAgreesBefore(evs: seq<Event>, q: nat)
    requires evs != [] && AdapterAgrees(evs, q)
    ensures AdapterAgrees(evs[..|evs| - 1], q)
    ensures var ev := evs[|evs| - 1]; ev.Step? && ev.pid == q ==> ev.a.answer.ok
  {
  }

  lemma {:induction false} RunPassesThrough(cfg: Cfg, end: Flags, s: State, evs: seq<Event>, q: nat)
    requires Reachable(cfg, s) && q < |s.procs| && PassesThrough(cfg, end, s.shared, s.procs[q])
    requires FlagsWithin(Run(cfg, s, evs).shared.flags, end)
    requires Remaining(s.procs[q]) >= 12 ==> AdapterAgrees(evs, q)
    ensures q < |Run(cfg, s, evs).procs|
    ensures PassesThrough(cfg, end, Run(cfg, s, evs).shared, Run(cfg, s, evs).procs[q])
  {
    if evs != [] {
      var init, ev := evs[..|evs| - 1], evs[|evs| - 1];
      AdapterAnswers(cfg, s, evs, q);
      ExecGrows(cfg, Run(cfg, s, init), ev);
      RunPassesThrough(cfg, end, s, init, q);
      ReachableOn(cfg, s, init);
      ExecPassesThrough(cfg, end, Run(cfg, s, init), ev, q);
    }
  }

  /** The operator call is about to set its flag. */
  ghost predicate IsOrdering(p: Proc, i: string) {
    p.Operator? && p.intentID == i && p.opPc == SetFlag
  }

  /** Exactly when an order beats an admission that it races. Set before the last read of its kind, it keeps the request
      from being admitted in every continuation. Set after it, the request is admitted all the same, provided that the
      reads still ahead see no termination or interrupt, the immune step and the registry let it through and the
      adapter agrees: further corrections, drift steering and registrations change nothing. */
  lemma OrderWinsIffReadAhead(cfg: Cfg, s: State, r: nat, a: Ambient, evs: seq<Event>, q: nat)
    requires Reachable(cfg, s) && r < |s.procs| && q < |s.procs| && InAdmit(s.procs[q])
    requires IsOrdering(s.procs[r], s.procs[q].req.intentID)
    ensures var s1 := Exec(cfg, s, Step(r, a));
            var p, s' := s.procs[q], Run(cfg, s1, evs);
            && q < |s'.procs| && s'.procs[q].Call?
            && (ReadAhead(s.procs[r].action, p) ==>
                  && s'.procs[q].out.None? && WroteNoAdmit(cfg, s1, evs, q)
                  && (LeftAdmit(s'.procs[q]) ==> s'.procs[q].pc.Done? && s'.procs[q].pc.end.Refused?))
            && (!ReadAhead(s.procs[r].action, p) && ReadsClear(s'.shared.flags, p) && Serviceable(cfg, s.shared, p)
                && (Remaining(p) >= 12 ==> AdapterAgrees(evs, q)) && LeftAdmit(s'.procs[q]) ==>
                  s'.procs[q].out.Some?)
  {
    var s1 := Exec(cfg, s, Step(r, a));
    var p, s' := s.procs[q], Run(cfg, s1, evs);
    ReachableNext(cfg, s, Step(r, a));
    assert s1.procs[q] == p;
    if ReadAhead(s.procs[r].action, p) {
      AdmissionPrecedence(cfg, s1, evs, q);
    } else {
      RunKeepsCall(cfg, s1, evs, q);
      if && ReadsClear(s'.shared.flags, p) && Serviceable(cfg, s.shared, p)
         && (Remaining(p) >= 12 ==> AdapterAgrees(evs, q)) {
        RunPassesThrough(cfg, s'.shared.flags, s1, evs, q);
        ReachableOn(cfg, s1, evs);
        ReachableVetted(cfg, s', q);
      }
    }
  }

  lemma {:induction false} RunKeepsCall(cfg: Cfg, s: State, evs: seq<Event>, q: nat)
    requires q < |s.procs| && s.procs[q].Call?
    ensures q < |Run(cfg, s, evs).procs| && Run(cfg, s, evs).procs[q].Call?
  {
    if evs != [] {
      RunKeepsCall(cfg, s, evs[..|evs| - 1], q);
      SameRequest(cfg, Run(cfg, s, evs[..|evs| - 1]), evs[|evs| - 1], q);
    }
  }
}
