/** The router as it runs: any number of requests and operator calls, interleaved.

    Every store of the source guards its methods with one mutex, so each such call is one atomic
    step here; what a request computes between two of them is part of the step before. A request
    carries a program counter through `Admit` and `GovernAndExecute`, an operator call through its
    handler. Clock readings, identifiers and adapter answers arrive with each step.
  */
module Protocol {
  import opened Types
  import opened Ledgers
  import opened Stores
  import opened Usl
  import opened Gre
  import opened Admission
  import opened Routing

  /** What is fixed when the router is built. */
  datatype Cfg = Cfg(tenants: seq<TenantPolicy>, lattice: seq<Grant>, hash: Entry -> string)

  datatype Shared = Shared(
    ledger: LedgerState, flags: Flags, exec: ExecMap, providers: set<string>, drift: Option<real>)

  /** How a call ended. */
  datatype End =
    | Refused(v: Verdict)                         // Admit refused
    | AdmittedOnly                                // an admission without execution
    | Stopped(err: Error)                         // an order won the final check
    | LateRefused(v: Verdict)                     // the provider vanished after ADMIT
    | Executed(entry: Entry)                      // Generate returned and was ledgered
    | ExecutionDenied(how: Generation, entry: Entry) // Generate failed or timed out

  datatype Pc =
    | VerifyLedger | ReadTerminated | ReadInterrupted
    | Pipeline(k: nat)                            // one stage; stage 5 is the three reads below
    | StageTerminated | StageInterrupted | StageCorrection
    | Lookup | AskAdapter
    | FlightTerminated | FlightInterrupted
    | WriteAdmit
    | FinalTerminated | FinalCorrection | FinalInterrupted(directive: string)
    | ReadCurrent | MarkRunning(cur: ExecState) | LookupAgain | StartGenerate | Await
    | ForceRefuse(st: ExecState, v: Verdict) | WriteRefusal(v: Verdict)
    | ForceStop(st: ExecState, err: Error) | WriteLate(v: Verdict)
    | Done(end: End)

  datatype OpPc = SetFlag | ForceState | WriteOrder | OpDone

  datatype Proc =
    | Call(req: Request, execute: bool, pc: Pc, log: seq<StageRecord>, out: Option<Entry>)
    | Operator(action: OperatorAction, intentID: string, opPc: OpPc)

  /** What one step does to the stores. */
  datatype Effect =
    | Nothing
    | Flag(action: OperatorAction, intentID: string)
    | Force(intentID: string, st: ExecState)
    | TryRunning(intentID: string, expected: ExecState)
    | Write(draft: Entry)

  function AfterStage(k: nat): Pc {
    if k == 4 then StageTerminated else if k == 8 then Lookup else Pipeline(k + 1)
  }

  function Refuse(p: Proc, v: Verdict): Proc
    requires p.Call?
  {
    p.(pc := WriteRefusal(v))
  }

  /** A stage's record: the next stage, or the refusal. */
  function Advance(p: Proc, k: nat, out: StageRecord): Proc
    requires p.Call?
  {
    if out.passed then p.(pc := AfterStage(k), log := p.log + [out])
    else Refuse(p, Verdict(Deny, out.reason, out.rule, NoError, p.log + [out]))
  }

  function ProviderFailure(p: Proc, result: AdmitResult, reason: Reason, stage: Stage, logged: Reason, rule: RuleRef,
                           err: Error): Verdict
    requires p.Call?
  {
    Verdict(result, reason, rule, err, p.log + [StageRecord(stage, false, logged, rule)])
  }

  function AdmitVerdict(log: seq<StageRecord>): Verdict {
    Verdict(Admit, Admitted, UslGate, NoError, log)
  }

  /** What the call writes after Generate. */
  function GenerationDraft(p: Proc, a: Ambient): Entry
    requires p.Call?
  {
    GenerationEntry(p.req, if p.out.Some? then p.out.value.decisionID else "", a)
  }

  /** The effect of the next step of `p`. */
  function EffectOf(p: Proc, a: Ambient): Effect {
    match p
    case Operator(action, intentID, opPc) => (
      match opPc
      case SetFlag => Flag(action, intentID)
      case ForceState => Force(intentID, ForcedState(action))
      case WriteOrder => Write(OperatorDraft(action, intentID, a))
      case OpDone => Nothing)
    case Call(req, execute, pc, log, out) => (
      match pc
      case WriteAdmit => Write(VerdictDraft(req, AdmitVerdict(log), a))
      case ForceRefuse(st, _) => Force(req.intentID, st)
      case ForceStop(st, _) => Force(req.intentID, st)
      case WriteRefusal(v) => Write(VerdictDraft(req, v, a))
      case WriteLate(v) => Write(VerdictDraft(req, v, a))
      case MarkRunning(cur) => TryRunning(req.intentID, cur)
      case Await => Write(GenerationDraft(p, a))
      case _ => Nothing)
  }

  function Apply(cfg: Cfg, sh: Shared, e: Effect, now: int): Shared {
    match e
    case Nothing => sh
    case Flag(action, intentID) => sh.(flags := WithAction(sh.flags, action, intentID))
    case Force(intentID, st) => sh.(exec := sh.exec[intentID := st])
    case TryRunning(intentID, expected) => sh.(exec := Transitioned(sh.exec, intentID, expected, Running))
    case Write(draft) => sh.(ledger := Appended(cfg.hash, sh.ledger, draft, now))
  }

  /** What a request computes from the configuration at its next step: the ledger's integrity, the record
      of the stage it is at, and the immune decision. */
  datatype Findings = Findings(intact: bool, checked: StageRecord, immune: ImmuneDecision)

  ghost function FindingsOf(cfg: Cfg, sh: Shared, p: Proc): Findings
    requires p.Call?
  {
    Findings(Linked(sh.ledger.entries),
             Check(if p.pc.Pipeline? && p.pc.k < 9 then STAGES[p.pc.k] else OutputValidation,
                   StageInput(p.req, cfg.tenants, cfg.lattice, sh.drift, NO_FLAGS)),
             ImmuneVerdict(cfg.tenants, p.req))
  }

  /** The local state after the next step of a request, given what it reads now. */
  function NextCall(cfg: Cfg, sh: Shared, f: Findings, p: Proc, a: Ambient): Proc
    requires p.Call?
  {
    var req, i := p.req, p.req.intentID;
    match p.pc
    // Admit
    case VerifyLedger =>
      if f.intact then p.(pc := ReadTerminated)
      else Refuse(p, Verdict(Deny, LedgerBroken, LedgerIntegrity, ErrLedgerBreak, []))
    case ReadTerminated =>
      if i in sh.flags.terminated then
        p.(pc := ForceRefuse(Terminated, Verdict(Deny, OperatorTermination, Lambda6, ErrTerminated,
             [StageRecord(OperatorCorrigibility, false, OperatorTermination, Lambda6)])))
      else p.(pc := ReadInterrupted)
    case ReadInterrupted =>
      if i in sh.flags.interrupted then
        Refuse(p, Verdict(Deny, OperatorInterruption, Lambda6, ErrInterrupted,
                          [StageRecord(OperatorCorrigibility, false, OperatorInterrupt, Lambda6)]))
      else p.(pc := Pipeline(0))
    case Pipeline(k) =>
      Advance(p, k, f.checked)
    case StageTerminated =>
      if i in sh.flags.terminated then
        Advance(p, 5, StageRecord(OperatorCorrigibility, false, TerminatedExecution, Lambda6))
      else p.(pc := StageInterrupted)
    case StageInterrupted =>
      if i in sh.flags.interrupted then
        Advance(p, 5, StageRecord(OperatorCorrigibility, false, InterruptActive, Lambda6))
      else p.(pc := StageCorrection)
    case StageCorrection =>
      if CorrectionOf(sh.flags, i).Some? then
        var directive := CorrectionOf(sh.flags, i).value;
        Advance(p, 5, StageRecord(OperatorCorrigibility, false, CorrectionActive(directive), Lambda6))
      else Advance(p, 5, StageRecord(OperatorCorrigibility, true, NoActiveInterrupt, Lambda6))
    case Lookup =>
      if !f.immune.result.Allow? then
        Refuse(p, ProviderFailure(p, Quarantine, Immune(f.immune.reason), ImmuneStage, f.immune.reason,
                                  ImmuneRule, NoError))
      else if req.modelRef.providerID !in sh.providers then
        Refuse(p, ProviderFailure(p, Deny, NoEnabledProvider, ProviderStage, NoProviderRegistered,
                                  ProviderRegistry, NoError))
      else p.(pc := AskAdapter)
    case AskAdapter =>
      if !a.answer.ok then
        Refuse(p, ProviderFailure(p, Deny, Adapter(a.answer.why), ProviderStage, AdapterSays(a.answer.why),
                                  ProviderAdapter, NoError))
      else p.(pc := FlightTerminated)
    case FlightTerminated =>
      if i in sh.flags.terminated then
        p.(pc := ForceRefuse(Terminated, ProviderFailure(p, Deny, TerminationInFlight, ProviderStage,
                                                         TerminationInFlight, Lambda6, ErrTerminated)))
      else p.(pc := FlightInterrupted)
    case FlightInterrupted =>
      if i in sh.flags.interrupted then
        p.(pc := ForceRefuse(Halted, ProviderFailure(p, Deny, InterruptionInFlight, ProviderStage,
                                                     InterruptionInFlight, Lambda6, ErrInterrupted)))
      else p.(pc := WriteAdmit)
    case WriteAdmit =>
      var stored := Stamp(cfg.hash, sh.ledger, VerdictDraft(req, AdmitVerdict(p.log), a), a.now);
      p.(out := Some(stored), pc := if p.execute then FinalTerminated else Done(AdmittedOnly))
    case ForceRefuse(_, v) => Refuse(p, v)
    case WriteRefusal(v) => p.(pc := Done(Refused(v)))
    // GovernAndExecute, after ADMIT
    case FinalTerminated =>
      p.(pc := if i in sh.flags.terminated then ForceStop(Terminated, ErrTerminated) else FinalCorrection)
    case FinalCorrection =>
      var c := CorrectionOf(sh.flags, i);
      p.(pc := FinalInterrupted(if c.Some? then c.value else ""))
    case FinalInterrupted(directive) =>
      p.(pc := if i in sh.flags.interrupted || directive != "" then ForceStop(Halted, ErrInterrupted) else ReadCurrent)
    case ForceStop(_, err) => p.(pc := Done(Stopped(err)))
    case ReadCurrent => p.(pc := MarkRunning(Current(sh.exec, i)))
    case MarkRunning(_) => p.(pc := LookupAgain)
    case LookupAgain =>
      p.(pc := if req.modelRef.providerID in sh.providers then StartGenerate
               else WriteLate(PROVIDER_GONE))
    case WriteLate(v) => p.(pc := Done(LateRefused(v)))
    case StartGenerate => p.(pc := Await)
    case Await =>
      var stored := Stamp(cfg.hash, sh.ledger, GenerationDraft(p, a), a.now);
      p.(pc := Done(if a.generation.Generated? then Executed(stored)
                    else ExecutionDenied(a.generation, stored)))
    case Done(_) => p
  }

  function NextOp(pc: OpPc): OpPc {
    match pc
    case SetFlag => ForceState
    case ForceState => WriteOrder
    case WriteOrder => OpDone
    case OpDone => OpDone
  }

  ghost function Next(cfg: Cfg, sh: Shared, p: Proc, a: Ambient): Proc {
    if p.Call? then NextCall(cfg, sh, FindingsOf(cfg, sh, p), p, a) else p.(opPc := NextOp(p.opPc))
  }

  // ---- Runs ------------------------------------------------------------------------------

  datatype State = State(shared: Shared, procs: seq<Proc>)

  /** A new router. */
  const INIT := State(Shared(EMPTY_LEDGER, NO_FLAGS, map[], {}, None), [])

  datatype Event =
    | Arrive(req: Request, execute: bool)
    | Order(or: OperatorRequest)
    | Steer(drift: real)
    | Register(id: string)
    | Step(pid: nat, a: Ambient)

  function NewCall(req: Request, execute: bool): Proc {
    Call(req, execute, VerifyLedger, [], None)
  }

  /** One event. A step of nobody and an order the handler rejects change nothing. */
  ghost function Exec(cfg: Cfg, s: State, ev: Event): State {
    match ev
    case Arrive(req, execute) => s.(procs := s.procs + [NewCall(req, execute)])
    case Order(or) =>
      if Acceptable(or) then s.(procs := s.procs + [Operator(or.action, or.intentID, SetFlag)]) else s
    case Steer(v) => s.(shared := s.shared.(drift := Some(v)))
    case Register(id) => s.(shared := s.shared.(providers := s.shared.providers + {id}))
    case Step(pid, a) =>
      if pid < |s.procs| then
        var p := s.procs[pid];
        State(Apply(cfg, s.shared, EffectOf(p, a), a.now), s.procs[pid := Next(cfg, s.shared, p, a)])
      else s
  }

  ghost function Run(cfg: Cfg, s: State, evs: seq<Event>): State {
    if evs == [] then s else Exec(cfg, Run(cfg, s, evs[..|evs| - 1]), evs[|evs| - 1])
  }

  /** The process whose step appends an entry at this event, if one does. */
  ghost function AuthorAt(s: State, ev: Event): seq<nat> {
    if ev.Step? && ev.pid < |s.procs| && EffectOf(s.procs[ev.pid], ev.a).Write? then [ev.pid] else []
  }

  /** Who appended the entries that a run adds to the ledger, oldest first. */
  ghost function Authors(cfg: Cfg, s: State, evs: seq<Event>): seq<nat> {
    if evs == [] then []
    else Authors(cfg, s, evs[..|evs| - 1]) + AuthorAt(Run(cfg, s, evs[..|evs| - 1]), evs[|evs| - 1])
  }
}
