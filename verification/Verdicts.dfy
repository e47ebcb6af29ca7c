/** What calls and orders tell under every interleaving: each flag goes back to an order, each refusal to what was read,
    each entry to the step that wrote it. */
module Verdicts {
  import opened Types
  import opened Ledgers
  import opened Stores
  import opened Usl
  import opened Gre
  import opened Admission
  import opened Routing
  import opened Protocol
  import opened Invariants
  import opened Theorems
  import opened Counting
  import opened Isolation
  import opened Precedence

  // ---- Flags are orders ------------------------------------------------------------------------------

  /** An operator call for this order on this intent that has set its flag. */
  ghost predicate HasSet(p: Proc, action: OperatorAction, i: string) {
    p.Operator? && p.action == action && p.intentID == i && p.opPc != SetFlag
  }

  ghost predicate Ordered(s: State, action: OperatorAction, i: string) {
    exists q :: 0 <= q < |s.procs| && HasSet(s.procs[q], action, i)
  }

  /** The flags of an intent are the orders on it, each of its own kind; the directive is that of one of them. */
  ghost predicate FlagsOfIntent(s: State, i: string) {
    && (i in s.shared.flags.terminated <==> Ordered(s, Terminate, i))
    && (i in s.shared.flags.interrupted <==> Ordered(s, Interrupt, i))
    && (i in s.shared.flags.corrected ==> Ordered(s, Correct(s.shared.flags.corrected[i]), i))
    && (forall d :: Ordered(s, Correct(d), i) ==> i in s.shared.flags.corrected)
  }

  /** Orders that are in force before an event are in force after it; the only new one is that of a call that sets its
      flag at this event. */
  lemma ExecKeepsOrdered(cfg: Cfg, s: State, ev: Event, action: OperatorAction, i: string)
    ensures Ordered(Exec(cfg, s, ev), action, i) <==>
            Ordered(s, action, i) || (Sets(s, ev) && s.procs[ev.pid].action == action && s.procs[ev.pid].intentID == i)
  {
    var s' := Exec(cfg, s, ev);
    if q :| 0 <= q < |s.procs| && HasSet(s.procs[q], action, i) {
      assert HasSet(s'.procs[q], action, i);
    }
    if Sets(s, ev) && s.procs[ev.pid].action == action && s.procs[ev.pid].intentID == i {
      assert HasSet(s'.procs[ev.pid], action, i);
    }
    if q :| 0 <= q < |s'.procs| && HasSet(s'.procs[q], action, i) {
      OperatorMoves(cfg, s, ev, q);
    }
  }

  /** An operator call sets its flag at this event. */
  ghost predicate Sets(s: State, ev: Event) {
    ev.Step? && ev.pid < |s.procs| && s.procs[ev.pid].Operator? && s.procs[ev.pid].opPc == SetFlag
  }

  lemma OperatorMoves(cfg: Cfg, s: State, ev: Event, q: nat)
    requires q < |Exec(cfg, s, ev).procs| && Exec(cfg, s, ev).procs[q].Operator?
    requires Exec(cfg, s, ev).procs[q].opPc != SetFlag
    ensures q < |s.procs| && s.procs[q].Operator?
    ensures var p, p' := s.procs[q], Exec(cfg, s, ev).procs[q];
            p.action == p'.action && p.intentID == p'.intentID && (p.opPc == SetFlag ==> Sets(s, ev) && ev.pid == q)
  {
  }

  /** Flags change only where an order is set, and only its own. */
  lemma ExecSetsFlags(cfg: Cfg, s: State, ev: Event, i: string)
    ensures var f, f' := s.shared.flags, Exec(cfg, s, ev).shared.flags;
            var hit := Sets(s, ev) && s.procs[ev.pid].intentID == i;
            && (i in f'.terminated <==> i in f.terminated || (hit && s.procs[ev.pid].action.Terminate?))
            && (i in f'.interrupted <==> i in f.interrupted || (hit && s.procs[ev.pid].action.Interrupt?))
            && CorrectionOf(f', i) == if hit && s.procs[ev.pid].action.Correct?
                                      then Some(s.procs[ev.pid].action.directive) else CorrectionOf(f, i)
  {
  }

  lemma ExecKeepsFlagsOfIntent(cfg: Cfg, s: State, ev: Event, i: string)
    requires FlagsOfIntent(s, i)
    ensures FlagsOfIntent(Exec(cfg, s, ev), i)
  {
    var s' := Exec(cfg, s, ev);
    ExecSetsFlags(cfg, s, ev, i);
    ExecKeepsOrdered(cfg, s, ev, Terminate, i);
    ExecKeepsOrdered(cfg, s, ev, Interrupt, i);
    if i in s'.shared.flags.corrected {
      ExecKeepsOrdered(cfg, s, ev, Correct(s'.shared.flags.corrected[i]), i);
    }
    forall d | Ordered(s', Correct(d), i) ensures i in s'.shared.flags.corrected {
      ExecKeepsOrdered(cfg, s, ev, Correct(d), i);
    }
  }

  lemma {:induction false} RunKeepsFlagsOfIntent(cfg: Cfg, evs: seq<Event>, i: string)
    ensures FlagsOfIntent(Run(cfg, INIT, evs), i)
  {
    if evs != [] {
      RunKeepsFlagsOfIntent(cfg, evs[..|evs| - 1], i);
      ExecKeepsFlagsOfIntent(cfg, Run(cfg, INIT, evs[..|evs| - 1]), evs[|evs| - 1], i);
    }
  }

  /** The event is an order of this kind on this intent that its handler accepts. */
  ghost predicate Issues(ev: Event, action: OperatorAction, i: string) {
    && ev.Order? && ev.or.action == action && ev.or.intentID == i && i != "" && ev.or.operatorID != ""
    && action != Correct("")
  }

  ghost predicate Issued(evs: seq<Event>, action: OperatorAction, i: string) {
    exists k :: 0 <= k < |evs| && Issues(evs[k], action, i)
  }

  lemma {:induction false} OperatorsAreIssued(cfg: Cfg, evs: seq<Event>, q: nat)
    requires q < |Run(cfg, INIT, evs).procs| && Run(cfg, INIT, evs).procs[q].Operator?
    ensures var p := Run(cfg, INIT, evs).procs[q]; Issued(evs, p.action, p.intentID)
    decreases |evs|
  {
    if evs != [] {
      var init, ev := evs[..|evs| - 1], evs[|evs| - 1];
      var mid, p := Run(cfg, INIT, init), Run(cfg, INIT, evs).procs[q];
      if q < |mid.procs| {
        SameOperator(cfg, mid, ev, q);
        OperatorsAreIssued(cfg, init, q);
        var k :| 0 <= k < |init| && Issues(init[k], p.action, p.intentID);
        assert evs[k] == init[k];
      } else {
        assert Issues(ev, p.action, p.intentID);
      }
    }
  }

  /** Every call in a run answers an arrival: its own request, to execute or only to admit as asked. */
  lemma {:induction false} CallsAnswerArrivals(cfg: Cfg, evs: seq<Event>, q: nat)
    requires q < |Run(cfg, INIT, evs).procs| && Run(cfg, INIT, evs).procs[q].Call?
    ensures var p := Run(cfg, INIT, evs).procs[q]; Arrive(p.req, p.execute) in evs
    decreases |evs|
  {
    if evs != [] {
      var init, ev := evs[..|evs| - 1], evs[|evs| - 1];
      var mid, p := Run(cfg, INIT, init), Run(cfg, INIT, evs).procs[q];
      if q < |mid.procs| {
        SameRequest(cfg, mid, ev, q);
        SamePurpose(cfg, mid, ev, q);
        CallsAnswerArrivals(cfg, init, q);
        assert evs == init + [ev];
      } else {
        assert ev == Arrive(p.req, p.execute);
      }
    }
  }

  lemma SamePurpose(cfg: Cfg, s: State, ev: Event, q: nat)
    requires q < |s.procs| && s.procs[q].Call? && q < |Exec(cfg, s, ev).procs| && Exec(cfg, s, ev).procs[q].Call?
    ensures Exec(cfg, s, ev).procs[q].execute == s.procs[q].execute
  {
  }

  lemma SameOperator(cfg: Cfg, s: State, ev: Event, q: nat)
    requires q < |s.procs| && q < |Exec(cfg, s, ev).procs| && Exec(cfg, s, ev).procs[q].Operator?
    ensures s.procs[q].Operator? && s.procs[q].action == Exec(cfg, s, ev).procs[q].action
    ensures s.procs[q].intentID == Exec(cfg, s, ev).procs[q].intentID
  {
  }

  lemma OrderedIsIssued(cfg: Cfg, evs: seq<Event>, action: OperatorAction, i: string)
    requires Ordered(Run(cfg, INIT, evs), action, i)
    ensures Issued(evs, action, i)
  {
    var s := Run(cfg, INIT, evs);
    var q :| 0 <= q < |s.procs| && HasSet(s.procs[q], action, i);
    OperatorsAreIssued(cfg, evs, q);
  }

  /** Flags come from orders, each from one of its own kind on its own intent: in every run an intent is terminated,
      interrupted or corrected only if an order to do just that was issued by a named operator and accepted, and a
      correction holds a directive that was issued. */
  lemma FlagsComeFromOrders(cfg: Cfg, evs: seq<Event>, i: string)
    ensures var f := Run(cfg, INIT, evs).shared.flags;
            && (i in f.terminated ==> Issued(evs, Terminate, i))
            && (i in f.interrupted ==> Issued(evs, Interrupt, i))
            && (i in f.corrected ==> Issued(evs, Correct(f.corrected[i]), i))
    ensures FlagsOfIntent(Run(cfg, INIT, evs), i)
  {
    var f := Run(cfg, INIT, evs).shared.flags;
    RunKeepsFlagsOfIntent(cfg, evs, i);
    if i in f.terminated { OrderedIsIssued(cfg, evs, Terminate, i); }
    if i in f.interrupted { OrderedIsIssued(cfg, evs, Interrupt, i); }
    if i in f.corrected { OrderedIsIssued(cfg, evs, Correct(f.corrected[i]), i); }
  }

  // ---- Refusals tell what was read -------------------------------------------------------------------

  const INTERRUPTED_VERDICT := Verdict(Deny, OperatorInterruption, Lambda6, ErrInterrupted,
    [StageRecord(OperatorCorrigibility, false, OperatorInterrupt, Lambda6)])
  const STAGE_TERMINATED := StageRefusal(5, TerminatedExecution, Lambda6)
  const STAGE_INTERRUPTED := StageRefusal(5, InterruptActive, Lambda6)
  const FLIGHT_TERMINATED := Verdict(Deny, TerminationInFlight, Lambda6, ErrTerminated,
    PASSED + [StageRecord(ProviderStage, false, TerminationInFlight, Lambda6)])
  const FLIGHT_INTERRUPTED := Verdict(Deny, InterruptionInFlight, Lambda6, ErrInterrupted,
    PASSED + [StageRecord(ProviderStage, false, InterruptionInFlight, Lambda6)])

  /** What an admission may have read in `w` goes back to orders in force; its ledger was sound. */
  ghost predicate CanHaveRead(s: State, i: string, w: World) {
    && w.ledgerOk
    && (w.terminated ==> Ordered(s, Terminate, i))
    && (w.interrupted ==> Ordered(s, Interrupt, i))
    && (w.correction.Some? ==> Ordered(s, Correct(w.correction.value), i))
    && (w.drift.Some? ==> s.shared.drift.Some?)
  }

  /** The verdict is the gate table's in a world that goes back to orders in force, or one of the four that only a
      race gives: an order that stage 6 or an in-flight read was the first to see. */
  ghost predicate Explained(cfg: Cfg, s: State, req: Request, v: Verdict) {
    var i := req.intentID;
    || (Ordered(s, Terminate, i) && (v == STAGE_TERMINATED || v == FLIGHT_TERMINATED))
    || (Ordered(s, Interrupt, i) && (v == STAGE_INTERRUPTED || v == FLIGHT_INTERRUPTED))
    || exists w :: v == DecisionOf(cfg, req, w) && CanHaveRead(s, i, w)
  }

  lemma ExplainedStays(cfg: Cfg, s: State, ev: Event, req: Request, v: Verdict)
    requires Explained(cfg, s, req, v)
    ensures Explained(cfg, Exec(cfg, s, ev), req, v)
  {
    var s', i := Exec(cfg, s, ev), req.intentID;
    ExecKeepsOrdered(cfg, s, ev, Terminate, i);
    ExecKeepsOrdered(cfg, s, ev, Interrupt, i);
    if w :| v == DecisionOf(cfg, req, w) && CanHaveRead(s, i, w) {
      if w.correction.Some? {
        ExecKeepsOrdered(cfg, s, ev, Correct(w.correction.value), i);
      }
      DriftStaysSteered(cfg, s, ev);
      assert CanHaveRead(s', i, w);
    }
  }

  lemma DriftStaysSteered(cfg: Cfg, s: State, ev: Event)
    ensures s.shared.drift.Some? ==> Exec(cfg, s, ev).shared.drift.Some?
  {
  }

  /** The refusal a call is on its way to, or has ended in. */
  ghost predicate Sentenced(p: Proc, v: Verdict) {
    p.Call? && ((p.pc.ForceRefuse? && p.pc.v == v) || p.pc == WriteRefusal(v) || p.pc == Done(Refused(v)))
  }

  ghost predicate CallExplained(cfg: Cfg, s: State, p: Proc) {
    forall v :: Sentenced(p, v) ==> Explained(cfg, s, p.req, v)
  }

  lemma OpeningExplains(cfg: Cfg, s: State, p: Proc, a: Ambient, v: Verdict)
    requires p.Call? && LocalOk(p) && FlagsOfIntent(s, p.req.intentID) && Linked(s.shared.ledger.entries)
    requires p.pc.VerifyLedger? || p.pc.ReadTerminated? || p.pc.ReadInterrupted?
    requires Sentenced(Next(cfg, s.shared, p, a), v)
    ensures Explained(cfg, s, p.req, v)
  {
    var w := if p.pc.ReadTerminated? then CALM.(terminated := true) else CALM.(interrupted := true);
    FirstGates(cfg.tenants, cfg.lattice, p.req, w);
    assert v == DecisionOf(cfg, p.req, w) && CanHaveRead(s, p.req.intentID, w);
  }

  /** Worlds that agree up to a gate pass the gates up to it alike. */
  lemma SameGates(cfg: Cfg, req: Request, w: World, n: nat)
    requires n <= 16 && w.ledgerOk && !w.terminated && !w.interrupted
    requires n > 11 ==> w.drift == None
    requires n > 12 ==> w.correction == None
    ensures Through(GatesOf(cfg, req, CALM), n) <==> Through(GatesOf(cfg, req, w), n)
  {
    var gs, hs := GatesOf(cfg, req, CALM), GatesOf(cfg, req, w);
    assert forall j :: 0 <= j < n ==> gs[j].ok == hs[j].ok;
  }

  lemma StageExplains(cfg: Cfg, s: State, p: Proc, a: Ambient, v: Verdict)
    requires p.Call? && LocalOk(p) && Vetted(cfg, p) && p.pc.Pipeline?
    requires Sentenced(Next(cfg, s.shared, p, a), v)
    ensures Explained(cfg, s, p.req, v)
  {
    var k, w := p.pc.k, CALM.(drift := s.shared.drift);
    if k >= 6 {
      LateStagesPass(cfg, s.shared, p);
    } else {
      SameGates(cfg, p.req, w, BOUND[k]);
      StageDecides(cfg, p.req, w, k);
      assert v == DecisionOf(cfg, p.req, w) && CanHaveRead(s, p.req.intentID, w);
    }
  }

  lemma StageSixExplains(cfg: Cfg, s: State, p: Proc, a: Ambient, v: Verdict)
    requires p.Call? && LocalOk(p) && Vetted(cfg, p) && FlagsOfIntent(s, p.req.intentID)
    requires p.pc.StageTerminated? || p.pc.StageInterrupted? || p.pc.StageCorrection?
    requires Sentenced(Next(cfg, s.shared, p, a), v)
    ensures Explained(cfg, s, p.req, v)
  {
    if p.pc.StageCorrection? {
      var w := CALM.(correction := CorrectionOf(s.shared.flags, p.req.intentID));
      SameGates(cfg, p.req, w, 12);
      StageSixDecides(cfg, p.req, w);
      assert v == DecisionOf(cfg, p.req, w) && CanHaveRead(s, p.req.intentID, w);
    }
  }

  lemma ProviderExplains(cfg: Cfg, s: State, p: Proc, a: Ambient, v: Verdict)
    requires p.Call? && LocalOk(p) && Vetted(cfg, p) && (p.pc.Lookup? || p.pc.AskAdapter?)
    requires Sentenced(Next(cfg, s.shared, p, a), v)
    ensures Explained(cfg, s, p.req, v)
  {
    var w := if p.pc.AskAdapter? then CALM.(answer := a.answer)
             else CALM.(registered := p.req.modelRef.providerID in s.shared.providers);
    SameGates(cfg, p.req, w, if p.pc.Lookup? then 13 else 16);
    if p.pc.Lookup? {
      ImmuneGates(cfg.tenants, cfg.lattice, p.req, w);
    }
    if p.pc.AskAdapter? || ImmuneVerdict(cfg.tenants, p.req).result.Allow? {
      ProviderGates(cfg.tenants, cfg.lattice, p.req, w);
    }
    assert v == DecisionOf(cfg, p.req, w) && CanHaveRead(s, p.req.intentID, w);
  }

  lemma RestExplains(cfg: Cfg, s: State, p: Proc, a: Ambient, v: Verdict)
    requires p.Call? && LocalOk(p) && FlagsOfIntent(s, p.req.intentID) && CallExplained(cfg, s, p)
    requires LateInCall(p.pc) && Sentenced(Next(cfg, s.shared, p, a), v)
    ensures Explained(cfg, s, p.req, v)
  {
    if !p.pc.FlightTerminated? && !p.pc.FlightInterrupted? {
      assert Sentenced(p, v);
    }
  }

  lemma StepExplains(cfg: Cfg, s: State, p: Proc, a: Ambient, v: Verdict)
    requires p.Call? && LocalOk(p) && Vetted(cfg, p) && FlagsOfIntent(s, p.req.intentID) && CallExplained(cfg, s, p)
    requires Linked(s.shared.ledger.entries) && !p.pc.WriteLate?
    requires Sentenced(Next(cfg, s.shared, p, a), v)
    ensures Explained(cfg, s, p.req, v)
  {
    match p.pc
    case VerifyLedger | ReadTerminated | ReadInterrupted => OpeningExplains(cfg, s, p, a, v);
    case Pipeline(_) => StageExplains(cfg, s, p, a, v);
    case StageTerminated | StageInterrupted | StageCorrection => StageSixExplains(cfg, s, p, a, v);
    case Lookup | AskAdapter => ProviderExplains(cfg, s, p, a, v);
    case _ => RestExplains(cfg, s, p, a, v);
  }

  lemma ExecExplains(cfg: Cfg, s: State, ev: Event, q: nat)
    requires Reachable(cfg, s) && q < |Exec(cfg, s, ev).procs| && Exec(cfg, s, ev).procs[q].Call?
    requires q < |s.procs| ==> CallExplained(cfg, s, s.procs[q])
    ensures CallExplained(cfg, Exec(cfg, s, ev), Exec(cfg, s, ev).procs[q])
  {
    var p' := Exec(cfg, s, ev).procs[q];
    if q >= |s.procs| {
      NewCallIsFresh(cfg, s, ev, q);
    } else {
      SameRequest(cfg, s, ev, q);
      forall v | Sentenced(p', v) ensures Explained(cfg, Exec(cfg, s, ev), p'.req, v) {
        if ev.Step? && ev.pid == q {
          ReachableFacts(cfg, s, q);
          StepExplains(cfg, s, s.procs[q], ev.a, v);
        } else {
          OthersUnmoved(cfg, s, ev, q);
        }
        ExplainedStays(cfg, s, ev, p'.req, v);
      }
    }
  }

  lemma ReachableFacts(cfg: Cfg, s: State, q: nat)
    requires Reachable(cfg, s) && q < |s.procs| && s.procs[q].Call?
    ensures Vetted(cfg, s.procs[q]) && LocalOk(s.procs[q]) && !s.procs[q].pc.WriteLate?
    ensures Linked(s.shared.ledger.entries) && FlagsOfIntent(s, s.procs[q].req.intentID)
  {
    ReachableVetted(cfg, s, q);
    ReachableInv(cfg, s);
    assert ProcOk(s.shared, s.procs[q]);
    var evs :| s == Run(cfg, INIT, evs);
    RunKeepsFlagsOfIntent(cfg, evs, s.procs[q].req.intentID);
  }

  lemma {:induction false} RunExplains(cfg: Cfg, evs: seq<Event>, q: nat)
    requires q < |Run(cfg, INIT, evs).procs| && Run(cfg, INIT, evs).procs[q].Call?
    ensures CallExplained(cfg, Run(cfg, INIT, evs), Run(cfg, INIT, evs).procs[q])
    decreases |evs|
  {
    if evs != [] {
      var init, ev := evs[..|evs| - 1], evs[|evs| - 1];
      var mid := Run(cfg, INIT, init);
      if q < |mid.procs| {
        SameRequest(cfg, mid, ev, q);
        RunExplains(cfg, init, q);
      }
      ExecExplains(cfg, mid, ev, q);
    }
  }

  /** Every refusal is explained, in every run: it is the gate table's verdict in a world that goes back to orders in
      force, or one of the four race verdicts, and then the order it tells is in force. */
  lemma EveryRefusalIsExplained(cfg: Cfg, s: State, q: nat, v: Verdict)
    requires Reachable(cfg, s) && q < |s.procs| && Sentenced(s.procs[q], v)
    ensures Explained(cfg, s, s.procs[q].req, v)
  {
    var evs :| s == Run(cfg, INIT, evs);
    RunExplains(cfg, evs, q);
  }

  /** What a verdict of the table tells about the world. */
  lemma TableTells(cfg: Cfg, req: Request, w: World)
    ensures var v := DecisionOf(cfg, req, w);
            && (v.err == ErrLedgerBreak ==> !w.ledgerOk)
            && (v.err == ErrTerminated ==> w.terminated) && (v.reason == OperatorTermination ==> w.terminated)
            && (v.err == ErrInterrupted ==> w.interrupted) && (v.reason == OperatorInterruption ==> w.interrupted)
            && (v.reason.CorrectionActive? ==> w.correction == Some(v.reason.directive))
            && (v.reason == DriftSpike ==> w.drift.Some?)
            && v.reason !in {TerminatedExecution, TerminationInFlight, InterruptActive, InterruptionInFlight}
  {
    var gs := GatesOf(cfg, req, w);
    var k := FirstFailing(gs);
    if k < 18 {
      GateTells(cfg, req, w, k);
    }
  }

  lemma GateTells(cfg: Cfg, req: Request, w: World, k: nat)
    requires k < 18 && !GatesOf(cfg, req, w)[k].ok
    ensures var v := GatesOf(cfg, req, w)[k].refusal;
            && (v.err == ErrLedgerBreak ==> !w.ledgerOk)
            && (v.err == ErrTerminated ==> w.terminated) && (v.reason == OperatorTermination ==> w.terminated)
            && (v.err == ErrInterrupted ==> w.interrupted) && (v.reason == OperatorInterruption ==> w.interrupted)
            && (v.reason.CorrectionActive? ==> w.correction == Some(v.reason.directive))
            && (v.reason == DriftSpike ==> w.drift.Some?)
            && v.reason !in {TerminatedExecution, TerminationInFlight, InterruptActive, InterruptionInFlight}
  {
  }

  /** Reasons that name a termination, and those that name an interrupt. */
  ghost predicate NamesTermination(r: Reason) {
    r in {OperatorTermination, TerminatedExecution, TerminationInFlight}
  }

  ghost predicate NamesInterrupt(r: Reason) {
    r in {OperatorInterruption, InterruptActive, InterruptionInFlight}
  }

  /** So in every run a refusal that names an order, in its error or its reason, names one that is in force. */
  lemma RefusalsNameTheirOrder(cfg: Cfg, s: State, q: nat, v: Verdict)
    requires Reachable(cfg, s) && q < |s.procs| && Sentenced(s.procs[q], v)
    ensures var i, f := s.procs[q].req.intentID, s.shared.flags;
            && (v.err == ErrTerminated || NamesTermination(v.reason) ==> i in f.terminated)
            && (v.err == ErrInterrupted || NamesInterrupt(v.reason) ==> i in f.interrupted)
            && (v.reason.CorrectionActive? ==> i in f.corrected && Ordered(s, Correct(v.reason.directive), i))
            && (v.reason == DriftSpike ==> s.shared.drift.Some?)
            && v.err != ErrLedgerBreak
  {
    var i := s.procs[q].req.intentID;
    EveryRefusalIsExplained(cfg, s, q, v);
    ReachableFacts(cfg, s, q);
    if w :| v == DecisionOf(cfg, s.procs[q].req, w) && CanHaveRead(s, i, w) {
      TableTells(cfg, s.procs[q].req, w);
    }
  }

  // ---- No order is read past -------------------------------------------------------------------------

  /** The program points at which a call reads orders of this kind, by the steps it still has ahead: three in `Admit`,
      or one for corrections, and one more before Generate if the call is to execute. */
  function Reads(action: OperatorAction, execute: bool): set<nat> {
    match action
    case Terminate => {26, 19, 11} + if execute then {8} else {}
    case Interrupt => {25, 18, 10} + if execute then {6} else {}
    case Correct(_) => {17} + if execute then {7} else {}
  }

  ghost predicate InForce(f: Flags, action: OperatorAction, i: string) {
    match action
    case Terminate => i in f.terminated
    case Interrupt => i in f.interrupted
    case Correct(_) => i in f.corrected
  }

  /** Refused, stopped, or about to be. */
  ghost predicate Turned(p: Proc) {
    && p.Call?
    && match p.pc
       case ForceRefuse(_, _) | WriteRefusal(_) | ForceStop(_, _) => true
       case FinalInterrupted(directive) => directive != ""
       case Done(end) => end.Refused? || end.Stopped?
       case _ => false
  }

  /** The call is held at read `r` of an order in force, or has been turned away. */
  ghost predicate Held(f: Flags, action: OperatorAction, r: nat, p: Proc) {
    p.Call? && r in Reads(action, p.execute) && (Turned(p) || (Remaining(p) >= r && InForce(f, action, p.req.intentID)))
  }

  lemma TerminationHolds(cfg: Cfg, sh: Shared, g: Findings, p: Proc, a: Ambient, r: nat)
    requires LocalOk(p) && Held(sh.flags, Terminate, r, p) && !Turned(p)
    ensures Held(sh.flags, Terminate, r, NextCall(cfg, sh, g, p, a))
  {
  }

  lemma InterruptHolds(cfg: Cfg, sh: Shared, g: Findings, p: Proc, a: Ambient, r: nat)
    requires LocalOk(p) && Held(sh.flags, Interrupt, r, p) && !Turned(p)
    ensures Held(sh.flags, Interrupt, r, NextCall(cfg, sh, g, p, a))
  {
  }

  lemma CorrectionHolds(cfg: Cfg, sh: Shared, g: Findings, p: Proc, a: Ambient, d: string, r: nat)
    requires LocalOk(p) && DirectivesNonEmpty(sh) && Held(sh.flags, Correct(d), r, p) && !Turned(p)
    ensures Held(sh.flags, Correct(d), r, NextCall(cfg, sh, g, p, a))
  {
  }

  lemma TurnedStays(cfg: Cfg, sh: Shared, g: Findings, p: Proc, a: Ambient)
    requires Turned(p)
    ensures Turned(NextCall(cfg, sh, g, p, a)) && NextCall(cfg, sh, g, p, a).execute == p.execute
  {
  }

  lemma StepKeepsHeld(cfg: Cfg, sh: Shared, g: Findings, p: Proc, a: Ambient, action: OperatorAction, r: nat)
    requires LocalOk(p) && DirectivesNonEmpty(sh) && Held(sh.flags, action, r, p)
    ensures Held(sh.flags, action, r, NextCall(cfg, sh, g, p, a))
  {
    if Turned(p) {
      TurnedStays(cfg, sh, g, p, a);
    } else {
      match action
      case Terminate => TerminationHolds(cfg, sh, g, p, a, r);
      case Interrupt => InterruptHolds(cfg, sh, g, p, a, r);
      case Correct(d) => CorrectionHolds(cfg, sh, g, p, a, d, r);
    }
  }

  lemma ExecKeepsHeld(cfg: Cfg, s: State, ev: Event, q: nat, action: OperatorAction, r: nat)
    requires Inv(cfg, s) && q < |s.procs| && Held(s.shared.flags, action, r, s.procs[q])
    ensures q < |Exec(cfg, s, ev).procs| && Held(Exec(cfg, s, ev).shared.flags, action, r, Exec(cfg, s, ev).procs[q])
  {
    ExecGrows(cfg, s, ev);
    if ev.Step? && ev.pid == q {
      assert ProcOk(s.shared, s.procs[q]);
      StepKeepsHeld(cfg, s.shared, FindingsOf(cfg, s.shared, s.procs[q]), s.procs[q], ev.a, action, r);
    } else {
      OthersUnmoved(cfg, s, ev, q);
    }
  }

  lemma {:induction false} RunKeepsHeld(cfg: Cfg, s: State, evs: seq<Event>, q: nat, action: OperatorAction, r: nat)
    requires Inv(cfg, s) && q < |s.procs| && Held(s.shared.flags, action, r, s.procs[q])
    ensures q < |Run(cfg, s, evs).procs| && Held(Run(cfg, s, evs).shared.flags, action, r, Run(cfg, s, evs).procs[q])
  {
    if evs != [] {
      RunKeepsHeld(cfg, s, evs[..|evs| - 1], q, action, r);
      RunKeepsInv(cfg, s, evs[..|evs| - 1]);
      ExecKeepsHeld(cfg, Run(cfg, s, evs[..|evs| - 1]), evs[|evs| - 1], q, action, r);
    }
  }

  /** No order is read past: with an order in force, a call that has any of its reads of that kind still ahead never
      gets beyond that read, in any continuation, unless turned away before it. */
  lemma NoOrderIsReadPast(cfg: Cfg, s: State, evs: seq<Event>, q: nat, action: OperatorAction, r: nat)
    requires Reachable(cfg, s) && q < |s.procs| && s.procs[q].Call? && r in Reads(action, s.procs[q].execute)
    requires Remaining(s.procs[q]) >= r && InForce(s.shared.flags, action, s.procs[q].req.intentID)
    ensures q < |Run(cfg, s, evs).procs|
    ensures Remaining(Run(cfg, s, evs).procs[q]) >= r || Turned(Run(cfg, s, evs).procs[q])
  {
    ReachableInv(cfg, s);
    RunKeepsHeld(cfg, s, evs, q, action, r);
  }

  /** A steered spike holds every call that has not passed stage 5, for as long as nobody steers again. */
  ghost predicate Spiked(sh: Shared) {
    sh.drift.Some? && sh.drift.value >= 0.5
  }

  lemma StepHoldsAtDrift(cfg: Cfg, sh: Shared, p: Proc, a: Ambient)
    requires p.Call? && LocalOk(p) && Spiked(sh) && (Turned(p) || Remaining(p) >= 20)
    ensures Turned(Next(cfg, sh, p, a)) || Remaining(Next(cfg, sh, p, a)) >= 20
  {
  }

  lemma {:induction false} SteeredSpikeHolds(cfg: Cfg, s: State, evs: seq<Event>, v: real, q: nat)
    requires Reachable(cfg, s) && v >= 0.5 && q < |s.procs| && s.procs[q].Call? && Remaining(s.procs[q]) >= 20
    requires forall k :: 0 <= k < |evs| ==> !evs[k].Steer?
    ensures var s' := Run(cfg, Exec(cfg, s, Steer(v)), evs);
            && q < |s'.procs| && s'.procs[q].Call? && s'.shared.drift == Some(v)
            && (Turned(s'.procs[q]) || Remaining(s'.procs[q]) >= 20)
  {
    var s1 := Exec(cfg, s, Steer(v));
    if evs != [] {
      var init, ev := evs[..|evs| - 1], evs[|evs| - 1];
      var mid := Run(cfg, s1, init);
      SteeredSpikeHolds(cfg, s, init, v, q);
      ReachableNext(cfg, s, Steer(v));
      ReachableOn(cfg, s1, init);
      ReachableInv(cfg, mid);
      SameRequest(cfg, mid, ev, q);
      DriftStays(cfg, mid, ev);
      if ev.Step? && ev.pid == q {
        assert ProcOk(mid.shared, mid.procs[q]);
        StepHoldsAtDrift(cfg, mid.shared, mid.procs[q], ev.a);
      } else {
        OthersUnmoved(cfg, mid, ev, q);
      }
    }
  }

  lemma DriftStays(cfg: Cfg, s: State, ev: Event)
    requires !ev.Steer?
    ensures Exec(cfg, s, ev).shared.drift == s.shared.drift
  {
  }

  // ---- The verdict of each read ----------------------------------------------------------------------

  /** What a read of an order in force refuses with. */
  ghost function VerdictAt(pc: Pc, f: Flags, i: string): Option<Verdict> {
    if i in f.terminated && pc.ReadTerminated? then Some(TERMINATED_VERDICT)
    else if i in f.terminated && pc.StageTerminated? then Some(STAGE_TERMINATED)
    else if i in f.terminated && pc.FlightTerminated? then Some(FLIGHT_TERMINATED)
    else if i in f.interrupted && pc.ReadInterrupted? then Some(INTERRUPTED_VERDICT)
    else if i in f.interrupted && pc.StageInterrupted? then Some(STAGE_INTERRUPTED)
    else if i in f.interrupted && pc.FlightInterrupted? then Some(FLIGHT_INTERRUPTED)
    else None
  }

  /** The call is at a read that will refuse it with `v`, or that read has. */
  ghost predicate Sentencing(f: Flags, p: Proc, v: Verdict) {
    p.Call? && (Sentenced(p, v) || VerdictAt(p.pc, f, p.req.intentID) == Some(v))
  }

  lemma StepSentences(cfg: Cfg, sh: Shared, g: Findings, p: Proc, a: Ambient, v: Verdict)
    requires LocalOk(p) && Sentencing(sh.flags, p, v)
    ensures Sentenced(NextCall(cfg, sh, g, p, a), v)
  {
    PassedPrefix(5);
  }

  lemma ExecSentences(cfg: Cfg, s: State, ev: Event, q: nat, v: Verdict)
    requires Inv(cfg, s) && q < |s.procs| && Sentencing(s.shared.flags, s.procs[q], v)
    ensures q < |Exec(cfg, s, ev).procs| && Sentencing(Exec(cfg, s, ev).shared.flags, Exec(cfg, s, ev).procs[q], v)
    ensures (ev.Step? && ev.pid == q) || Sentenced(s.procs[q], v) ==> Sentenced(Exec(cfg, s, ev).procs[q], v)
  {
    ExecGrows(cfg, s, ev);
    if ev.Step? && ev.pid == q {
      assert ProcOk(s.shared, s.procs[q]);
      StepSentences(cfg, s.shared, FindingsOf(cfg, s.shared, s.procs[q]), s.procs[q], ev.a, v);
    } else {
      OthersUnmoved(cfg, s, ev, q);
    }
  }

  lemma {:induction false} RunSentences(cfg: Cfg, s: State, evs: seq<Event>, q: nat, v: Verdict)
    requires Inv(cfg, s) && q < |s.procs| && Sentencing(s.shared.flags, s.procs[q], v)
    ensures q < |Run(cfg, s, evs).procs| && Sentencing(Run(cfg, s, evs).shared.flags, Run(cfg, s, evs).procs[q], v)
    ensures OwnSteps(evs, q) > 0 ==> Sentenced(Run(cfg, s, evs).procs[q], v)
  {
    if evs != [] {
      RunSentences(cfg, s, evs[..|evs| - 1], q, v);
      RunKeepsInv(cfg, s, evs[..|evs| - 1]);
      ExecSentences(cfg, Run(cfg, s, evs[..|evs| - 1]), evs[|evs| - 1], q, v);
    }
  }

  /** The verdict of each read, over runs: a call at a read of an order in force is refused with that read's own verdict
      as soon as it moves, whatever else happens, and ends in it. For the in-flight reads that is the operator's
      termination or interruption during flight, with its error, after nine passed stages. */
  lemma ReadDecides(cfg: Cfg, s: State, evs: seq<Event>, q: nat)
    requires Reachable(cfg, s) && q < |s.procs| && s.procs[q].Call? && OwnSteps(evs, q) > 0
    ensures q < |Run(cfg, s, evs).procs|
    ensures var p, p' := s.procs[q], Run(cfg, s, evs).procs[q];
            var i, f := p.req.intentID, s.shared.flags;
            && (p.pc.FlightTerminated? && i in f.terminated ==> Sentenced(p', FLIGHT_TERMINATED))
            && (p.pc.FlightInterrupted? && i in f.interrupted ==> Sentenced(p', FLIGHT_INTERRUPTED))
            && (p.pc.StageTerminated? && i in f.terminated ==> Sentenced(p', STAGE_TERMINATED))
            && (p.pc.StageInterrupted? && i in f.interrupted ==> Sentenced(p', STAGE_INTERRUPTED))
            && (p.pc.ReadTerminated? && i in f.terminated ==> Sentenced(p', TERMINATED_VERDICT))
            && (p.pc.ReadInterrupted? && i in f.interrupted ==> Sentenced(p', INTERRUPTED_VERDICT))
  {
    ReachableInv(cfg, s);
    RunGrows(cfg, s, evs);
    var v := VerdictAt(s.procs[q].pc, s.shared.flags, s.procs[q].req.intentID);
    if v.Some? {
      RunSentences(cfg, s, evs, q, v.value);
    }
  }

  // ---- The final check -------------------------------------------------------------------------------

  /** The final check has stopped the call with this error. */
  ghost predicate StoppedWith(p: Proc, err: Error) {
    p.Call? && ((p.pc.ForceStop? && p.pc.err == err) || p.pc == Done(Stopped(err)))
  }

  /** The error that the final reads give a call at this point. */
  ghost function ErrorAt(pc: Pc, f: Flags, i: string): Error {
    if pc.FinalTerminated? && i in f.terminated then ErrTerminated
    else if pc.FinalInterrupted? && (i in f.interrupted || pc.directive != "") then ErrInterrupted
    else NoError
  }

  ghost predicate Stopping(f: Flags, p: Proc, err: Error) {
    p.Call? && err != NoError && (StoppedWith(p, err) || ErrorAt(p.pc, f, p.req.intentID) == err)
  }

  lemma StepStops(cfg: Cfg, sh: Shared, g: Findings, p: Proc, a: Ambient, err: Error)
    requires Stopping(sh.flags, p, err)
    ensures StoppedWith(NextCall(cfg, sh, g, p, a), err)
  {
  }

  lemma ExecStops(cfg: Cfg, s: State, ev: Event, q: nat, err: Error)
    requires q < |s.procs| && Stopping(s.shared.flags, s.procs[q], err)
    ensures q < |Exec(cfg, s, ev).procs| && Stopping(Exec(cfg, s, ev).shared.flags, Exec(cfg, s, ev).procs[q], err)
    ensures (ev.Step? && ev.pid == q) || StoppedWith(s.procs[q], err) ==> StoppedWith(Exec(cfg, s, ev).procs[q], err)
  {
    ExecGrows(cfg, s, ev);
    if ev.Step? && ev.pid == q {
      StepStops(cfg, s.shared, FindingsOf(cfg, s.shared, s.procs[q]), s.procs[q], ev.a, err);
    } else {
      OthersUnmoved(cfg, s, ev, q);
    }
  }

  lemma {:induction false} RunStops(cfg: Cfg, s: State, evs: seq<Event>, q: nat, err: Error)
    requires q < |s.procs| && Stopping(s.shared.flags, s.procs[q], err)
    ensures q < |Run(cfg, s, evs).procs| && Stopping(Run(cfg, s, evs).shared.flags, Run(cfg, s, evs).procs[q], err)
    ensures OwnSteps(evs, q) > 0 ==> StoppedWith(Run(cfg, s, evs).procs[q], err)
  {
    if evs != [] {
      RunStops(cfg, s, evs[..|evs| - 1], q, err);
      ExecStops(cfg, Run(cfg, s, evs[..|evs| - 1]), evs[|evs| - 1], q, err);
    }
  }

  /** The final check, over runs: a call at its termination read with the intent terminated is stopped with the
      termination error as soon as it moves; one at its interrupt read with the intent interrupted, or with a directive
      it has just read, with the interruption error. */
  lemma FinalCheckDecides(cfg: Cfg, s: State, evs: seq<Event>, q: nat)
    requires q < |s.procs| && s.procs[q].Call? && OwnSteps(evs, q) > 0
    ensures q < |Run(cfg, s, evs).procs|
    ensures var p, p' := s.procs[q], Run(cfg, s, evs).procs[q];
            var i, f := p.req.intentID, s.shared.flags;
            && (p.pc.FinalTerminated? && i in f.terminated ==> StoppedWith(p', ErrTerminated))
            && (p.pc.FinalInterrupted? && (i in f.interrupted || p.pc.directive != "") ==>
                  StoppedWith(p', ErrInterrupted))
  {
    RunGrows(cfg, s, evs);
    var err := ErrorAt(s.procs[q].pc, s.shared.flags, s.procs[q].req.intentID);
    if err != NoError {
      RunStops(cfg, s, evs, q, err);
    }
  }

  // ---- Orders force the execution state ----------------------------------------------------------------

  /** These refusals force the execution state before they are ledgered. */
  ghost predicate Forces(v: Verdict) {
    v.err == ErrTerminated || v.reason == InterruptionInFlight
  }

  /** A call that an order has stopped has forced the state, and tells an order that is in force. */
  ghost predicate StopOk(sh: Shared, p: Proc) {
    p.Call? ==>
      var i, forced := p.req.intentID, Current(sh.exec, p.req.intentID).IsTerminal();
      && (p.pc.ForceStop? ==> StopTells(sh.flags, i, p.pc.err))
      && (p.pc.Done? && p.pc.end.Stopped? ==> forced && StopTells(sh.flags, i, p.pc.end.err))
      && (p.pc.WriteRefusal? && Forces(p.pc.v) ==> forced)
      && (p.pc.Done? && p.pc.end.Refused? && Forces(p.pc.end.v) ==> forced)
  }

  ghost predicate StopTells(f: Flags, i: string, err: Error) {
    || (err == ErrTerminated && i in f.terminated)
    || (err == ErrInterrupted && (i in f.interrupted || i in f.corrected))
  }

  lemma StageForcesNothing(cfg: Cfg, sh: Shared, g: Findings, p: Proc, a: Ambient)
    requires p.Call? && InPipeline(p.pc) && LocalOk(p) && FindingsOk(p, g) && g.checked.reason != InterruptionInFlight
    ensures StopOk(sh, NextCall(cfg, sh, g, p, a))
  {
  }

  lemma AdmitKeepsStopOk(cfg: Cfg, sh: Shared, g: Findings, p: Proc, a: Ambient)
    requires p.Call? && ProcOk(sh, p) && StopOk(sh, p) && !InPipeline(p.pc) && !AfterAdmit(p.pc)
    ensures StopOk(Apply(cfg, sh, EffectOf(p, a), a.now), NextCall(cfg, sh, g, p, a))
  {
  }

  lemma ExecuteKeepsStopOk(cfg: Cfg, sh: Shared, g: Findings, p: Proc, a: Ambient)
    requires p.Call? && ProcOk(sh, p) && StopOk(sh, p) && ExecBacked(sh) && AfterAdmit(p.pc)
    ensures StopOk(Apply(cfg, sh, EffectOf(p, a), a.now), NextCall(cfg, sh, g, p, a))
  {
  }

  lemma StageNamesNoFlight(cfg: Cfg, sh: Shared, p: Proc)
    requires p.Call?
    ensures FindingsOf(cfg, sh, p).checked.reason != InterruptionInFlight
  {
  }

  lemma StepKeepsStops(cfg: Cfg, s: State, q: nat, a: Ambient)
    requires Inv(cfg, s) && q < |s.procs| && s.procs[q].Call? && StopOk(s.shared, s.procs[q])
    ensures StopOk(Exec(cfg, s, Step(q, a)).shared, Exec(cfg, s, Step(q, a)).procs[q])
  {
    var p, g := s.procs[q], FindingsOf(cfg, s.shared, s.procs[q]);
    assert ProcOk(s.shared, p);
    if InPipeline(p.pc) {
      FindingsAreOk(cfg, s.shared, p);
      StageNamesNoFlight(cfg, s.shared, p);
      StageForcesNothing(cfg, s.shared, g, p, a);
    } else if AfterAdmit(p.pc) {
      ExecuteKeepsStopOk(cfg, s.shared, g, p, a);
    } else {
      AdmitKeepsStopOk(cfg, s.shared, g, p, a);
    }
  }

  /** Another process's step keeps orders and terminal states. */
  lemma StopStays(cfg: Cfg, s: State, ev: Event, p: Proc)
    requires Inv(cfg, s) && StopOk(s.shared, p)
    ensures StopOk(Exec(cfg, s, ev).shared, p)
  {
    ExecGrows(cfg, s, ev);
    if ev.Step? && ev.pid < |s.procs| && p.Call? {
      assert ProcOk(s.shared, s.procs[ev.pid]);
      StepKeepsTerminal(cfg, s.shared, s.procs[ev.pid], ev.a, p.req.intentID);
    }
  }

  lemma {:induction false} RunStopsOk(cfg: Cfg, evs: seq<Event>, q: nat)
    requires q < |Run(cfg, INIT, evs).procs|
    ensures StopOk(Run(cfg, INIT, evs).shared, Run(cfg, INIT, evs).procs[q])
    decreases |evs|
  {
    if evs != [] {
      var init, ev := evs[..|evs| - 1], evs[|evs| - 1];
      var mid := Run(cfg, INIT, init);
      InitInv(cfg);
      RunKeepsInv(cfg, INIT, init);
      if q >= |mid.procs| {
        if Run(cfg, INIT, evs).procs[q].Call? {
          NewCallIsFresh(cfg, mid, ev, q);
        }
      } else {
        RunStopsOk(cfg, init, q);
        SameRequest(cfg, mid, ev, q);
        if ev.Step? && ev.pid == q {
          if mid.procs[q].Call? {
            StepKeepsStops(cfg, mid, q, ev.a);
          }
        } else {
          OthersUnmoved(cfg, mid, ev, q);
          StopStays(cfg, mid, ev, mid.procs[q]);
        }
      }
    }
  }

  /** In every run a call that ended on an order left its intent in a terminal state and named an order in force: one
      that the final check stopped, and one refused as terminated or interrupted in flight. */
  lemma OrderedEndsForceTheState(cfg: Cfg, s: State, q: nat)
    requires Reachable(cfg, s) && q < |s.procs| && s.procs[q].Call? && s.procs[q].pc.Done?
    ensures var p := s.procs[q];
            var i, f := p.req.intentID, s.shared.flags;
            && (p.pc.end.Stopped? ==>
                  && Current(s.shared.exec, i).IsTerminal()
                  && (|| (p.pc.end.err == ErrTerminated && i in f.terminated)
                      || (p.pc.end.err == ErrInterrupted && (i in f.interrupted || i in f.corrected))))
            && (p.pc.end.Refused? && (p.pc.end.v.err == ErrTerminated || p.pc.end.v == FLIGHT_INTERRUPTED) ==>
                  Current(s.shared.exec, i).IsTerminal())
  {
    var evs :| s == Run(cfg, INIT, evs);
    RunStopsOk(cfg, evs, q);
  }

  // ---- Entries tell their step -------------------------------------------------------------------------

  /** The entry that a step of `p` writes: what it decided, under the decision id, the marker and the time of that very
      step; only a result carries the decision id of the admission it belongs to. */
  ghost predicate TellsStep(e: Entry, p: Proc, a: Ambient) {
    && e.timestamp == a.now
    && match p
       case Operator(action, i, _) => RecordsOrder(e, action, i) && CarriesStep(e, a)
       case Call(req, _, pc, _, out) =>
         if pc.Await? then
           && out.Some? && EndsGenerate(e, req, out.value.decisionID, a.generation) && e.replayID == a.replayID
           && (!a.generation.Generated? ==> e.decisionID == a.decisionID)
         else
           && e.decisionID == a.decisionID
           && if pc.WriteAdmit? then Records(e, req, ADMITTED) && e.replayID == a.replayID
              else
                && pc.WriteRefusal? && Records(e, req, pc.v)
                && e.replayID == if pc.v.rule == LedgerIntegrity then "replay-" + req.intentID else a.replayID
  }

  lemma StampTellsStep(cfg: Cfg, sh: Shared, p: Proc, a: Ambient)
    requires ProcOk(sh, p) && EffectOf(p, a).Write?
    ensures TellsStep(Stamp(cfg.hash, sh.ledger, EffectOf(p, a).draft, a.now), p, a)
  {
    if p.Operator? {
      StampedOrder(cfg.hash, sh.ledger, p.action, p.intentID, a);
    } else if p.pc.Await? {
      StampedGeneration(cfg.hash, sh.ledger, p.req, p.out.value.decisionID, a);
    } else {
      assert p.pc.WriteAdmit? || p.pc.WriteRefusal?;
      StampedVerdict(cfg.hash, sh.ledger, p.req, if p.pc.WriteAdmit? then AdmitVerdict(p.log) else p.pc.v, a);
    }
  }

  /** Every entry of every run tells the step that wrote it, at its own position; and a call whose Generate ends keeps
      that entry and how it ended. */
  lemma EntriesTellTheirStep(cfg: Cfg, s: State, ev: Event)
    requires Reachable(cfg, s) && |AuthorAt(s, ev)| > 0
    ensures var n, es := |s.shared.ledger.entries|, Exec(cfg, s, ev).shared.ledger.entries;
            |es| == n + 1 && es[n].index == n && TellsStep(es[n], s.procs[ev.pid], ev.a)
    ensures s.procs[ev.pid].Call? && s.procs[ev.pid].pc.Await? ==>
              |Exec(cfg, s, ev).procs| == |s.procs| &&
              KeepsEnd(Exec(cfg, s, ev).procs[ev.pid], Exec(cfg, s, ev).shared.ledger.entries, ev.a.generation)
  {
    ReachableInv(cfg, s);
    assert ProcOk(s.shared, s.procs[ev.pid]);
    NewEntryIsStamped(cfg, s, ev);
    StampTellsStep(cfg, s.shared, s.procs[ev.pid], ev.a);
    if s.procs[ev.pid].Call? && s.procs[ev.pid].pc.Await? {
      AwaitKeepsEnd(cfg, s, ev.pid, ev.a);
    }
  }

  /** The call has ended in the last entry, with what Generate gave. */
  ghost predicate KeepsEnd(p: Proc, es: seq<Entry>, g: Generation) {
    && p.Call? && |es| > 0
    && p.pc == Done(if g.Generated? then Executed(es[|es| - 1]) else ExecutionDenied(g, es[|es| - 1]))
  }

  lemma AwaitKeepsEnd(cfg: Cfg, s: State, q: nat, a: Ambient)
    requires q < |s.procs| && s.procs[q].Call? && s.procs[q].pc.Await?
    ensures |Exec(cfg, s, Step(q, a)).procs| == |s.procs|
    ensures KeepsEnd(Exec(cfg, s, Step(q, a)).procs[q], Exec(cfg, s, Step(q, a)).shared.ledger.entries, a.generation)
  {
  }
}
