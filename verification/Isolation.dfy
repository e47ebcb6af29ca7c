/** The interleaved router decides as the gate table does, unless an order on the request's own intent,
    a drift steering or a registration of its provider comes between. */
module Isolation {
  import opened Types
  import opened Ledgers
  import opened Stores
  import opened Usl
  import opened Gre
  import opened Admission
  import opened Routing
  import opened Protocol
  import opened Invariants
  import opened Theorems

  /** What an admission of `req` would read if it ran alone from here. */
  ghost function WorldNow(sh: Shared, req: Request, answer: Answer): World {
    World(Linked(sh.ledger.entries), req.intentID in sh.flags.terminated, req.intentID in sh.flags.interrupted,
          CorrectionOf(sh.flags, req.intentID), sh.drift, req.modelRef.providerID in sh.providers, answer)
  }

  /** Stage 6 has still to read corrections: the call is at StageCorrection or before it. */
  ghost predicate StageSixAhead(p: Proc) {
    Remaining(p) >= 17
  }

  /** What the call has still to read is as in `w`: the correction matters only until stage 6 has read it. */
  ghost predicate Agrees(sh: Shared, w: World, p: Proc)
    requires p.Call?
  {
    var v := WorldNow(sh, p.req, w.answer);
    v.(correction := w.correction) == w && (StageSixAhead(p) ==> v.correction == w.correction)
  }

  ghost function GatesOf(cfg: Cfg, req: Request, w: World): seq<Gate> {
    Gates(cfg.tenants, cfg.lattice, req, w)
  }

  ghost function DecisionOf(cfg: Cfg, req: Request, w: World): Verdict {
    Decision(cfg.tenants, cfg.lattice, req, w)
  }

  /** The call has got as far as the gate table says it should in `w`. */
  ghost predicate OnPath(cfg: Cfg, w: World, p: Proc) {
    p.Call? &&
    match p.pc
    case VerifyLedger => true
    case ReadTerminated => w.ledgerOk
    case ReadInterrupted => w.ledgerOk && !w.terminated
    case Pipeline(k) => k < 9 && k != 5 && Through(GatesOf(cfg, p.req, w), BOUND[k])
    case StageTerminated | StageInterrupted | StageCorrection => Through(GatesOf(cfg, p.req, w), 12)
    case Lookup => Through(GatesOf(cfg, p.req, w), 13)
    case AskAdapter => Through(GatesOf(cfg, p.req, w), 16) && w.registered
    case ForceRefuse(_, v) => v == DecisionOf(cfg, p.req, w)
    case WriteRefusal(v) => v == DecisionOf(cfg, p.req, w)
    case Done(end) => DecisionOf(cfg, p.req, w) == if end.Refused? then end.v else ADMITTED
    case _ => DecisionOf(cfg, p.req, w) == ADMITTED
  }

  lemma OpeningStaysOnPath(cfg: Cfg, sh: Shared, p: Proc, a: Ambient, w: World)
    requires p.Call? && Agrees(sh, w, p) && OnPath(cfg, w, p)
    requires p.pc.VerifyLedger? || p.pc.ReadTerminated? || p.pc.ReadInterrupted?
    ensures OnPath(cfg, w, Next(cfg, sh, p, a))
  {
    FirstGates(cfg.tenants, cfg.lattice, p.req, w);
  }

  /** The flags that `w` describes. */
  ghost function FlagsOf(w: World, i: string): Flags {
    Flags(if w.interrupted then {i} else {}, if w.correction.Some? then map[i := w.correction.value] else map[],
          if w.terminated then {i} else {})
  }

  /** The stages other than stage 6 do not look at flags. */
  lemma StageIgnoresFlags(si: StageInput, k: nat, flags: Flags)
    requires k < 9 && k != 5
    ensures Check(STAGES[k], si) == Check(STAGES[k], si.(flags := flags))
  {
  }

  /** So a stage that runs on no flags decides its gates in `w`. */
  lemma StageDecides(cfg: Cfg, req: Request, w: World, k: nat)
    requires k < 9 && k != 5 && Through(GatesOf(cfg, req, w), BOUND[k])
    ensures var out := Check(STAGES[k], StageInput(req, cfg.tenants, cfg.lattice, w.drift, NO_FLAGS));
            && (out.passed ==> Through(GatesOf(cfg, req, w), BOUND[k + 1]))
            && (!out.passed ==> DecisionOf(cfg, req, w) == StageVerdict(PASSED[..k], out))
  {
    var si := StageInput(req, cfg.tenants, cfg.lattice, w.drift, NO_FLAGS);
    StageIgnoresFlags(si, k, FlagsOf(w, req.intentID));
    StageGates(si.(flags := FlagsOf(w, req.intentID)), w, k);
  }

  lemma PipelineStaysOnPath(cfg: Cfg, sh: Shared, p: Proc, a: Ambient, w: World)
    requires p.Call? && LocalOk(p) && Agrees(sh, w, p) && OnPath(cfg, w, p) && p.pc.Pipeline?
    ensures OnPath(cfg, w, Next(cfg, sh, p, a))
  {
    StageDecides(cfg, p.req, w, p.pc.k);
  }

  /** Stage 6 in a world whose gates up to it hold: no termination, no interrupt, and the correction decides. */
  lemma StageSixDecides(cfg: Cfg, req: Request, w: World)
    requires Through(GatesOf(cfg, req, w), 12)
    ensures !w.terminated && !w.interrupted
    ensures w.correction.None? ==> Through(GatesOf(cfg, req, w), 13)
    ensures w.correction.Some? ==>
              var out := StageRecord(OperatorCorrigibility, false, CorrectionActive(w.correction.value), Lambda6);
              DecisionOf(cfg, req, w) == StageVerdict(PASSED[..5], out)
  {
    var gs := GatesOf(cfg, req, w);
    assert gs[1].ok && gs[2].ok;
    if w.correction.Some? {
      DecidedAt(cfg.tenants, cfg.lattice, req, w, 12);
    }
  }

  lemma StageSixStaysOnPath(cfg: Cfg, sh: Shared, p: Proc, a: Ambient, w: World)
    requires p.Call? && LocalOk(p) && Agrees(sh, w, p) && OnPath(cfg, w, p)
    requires p.pc.StageTerminated? || p.pc.StageInterrupted? || p.pc.StageCorrection?
    ensures OnPath(cfg, w, Next(cfg, sh, p, a))
  {
    StageSixDecides(cfg, p.req, w);
  }

  lemma ProviderStaysOnPath(cfg: Cfg, sh: Shared, p: Proc, a: Ambient, w: World)
    requires p.Call? && LocalOk(p) && Agrees(sh, w, p) && OnPath(cfg, w, p) && a.answer == w.answer
    requires p.pc.Lookup? || p.pc.AskAdapter?
    ensures OnPath(cfg, w, Next(cfg, sh, p, a))
  {
    if p.pc.Lookup? {
      ImmuneGates(cfg.tenants, cfg.lattice, p.req, w);
      if ImmuneVerdict(cfg.tenants, p.req).result.Allow? {
        ProviderGates(cfg.tenants, cfg.lattice, p.req, w);
      }
    } else {
      ProviderGates(cfg.tenants, cfg.lattice, p.req, w);
    }
  }

  lemma RestStaysOnPath(cfg: Cfg, sh: Shared, p: Proc, a: Ambient, w: World)
    requires p.Call? && LocalOk(p) && Agrees(sh, w, p) && OnPath(cfg, w, p)
    requires LateInCall(p.pc)
    ensures OnPath(cfg, w, Next(cfg, sh, p, a))
  {
    if p.pc.FlightTerminated? || p.pc.FlightInterrupted? {
      FlightStaysOnPath(cfg, sh, p, a, w);
    }
  }

  lemma FlightStaysOnPath(cfg: Cfg, sh: Shared, p: Proc, a: Ambient, w: World)
    requires p.Call? && LocalOk(p) && Agrees(sh, w, p) && OnPath(cfg, w, p)
    requires p.pc.FlightTerminated? || p.pc.FlightInterrupted?
    ensures OnPath(cfg, w, Next(cfg, sh, p, a))
  {
    AdmittedMeans(cfg.tenants, cfg.lattice, p.req, w);
  }

  /** Past the adapter's answer, or refused. */
  ghost predicate LateInCall(pc: Pc) {
    match pc
    case VerifyLedger | ReadTerminated | ReadInterrupted | Pipeline(_) => false
    case StageTerminated | StageInterrupted | StageCorrection | Lookup | AskAdapter | WriteLate(_) => false
    case _ => true
  }

  lemma StepStaysOnPath(cfg: Cfg, sh: Shared, p: Proc, a: Ambient, w: World)
    requires p.Call? && LocalOk(p) && !p.pc.WriteLate? && Agrees(sh, w, p) && OnPath(cfg, w, p)
    requires a.answer == w.answer
    ensures OnPath(cfg, w, Next(cfg, sh, p, a))
  {
    match p.pc
    case VerifyLedger | ReadTerminated | ReadInterrupted => OpeningStaysOnPath(cfg, sh, p, a, w);
    case Pipeline(_) => PipelineStaysOnPath(cfg, sh, p, a, w);
    case StageTerminated | StageInterrupted | StageCorrection => StageSixStaysOnPath(cfg, sh, p, a, w);
    case Lookup | AskAdapter => ProviderStaysOnPath(cfg, sh, p, a, w);
    case _ => RestStaysOnPath(cfg, sh, p, a, w);
  }

  // ---- Quiet runs ------------------------------------------------------------------------------------

  /** The event is no order on the intent of `req`, steers no drift, does not register its provider, and its adapter
      answers as `answer`. Everything else is allowed: other requests, on this intent too, and orders on others. */
  ghost predicate QuietEvent(s: State, ev: Event, req: Request, answer: Answer) {
    match ev
    case Arrive(_, _) => true
    case Order(or) => or.intentID != req.intentID
    case Steer(_) => false
    case Register(id) => id != req.modelRef.providerID
    case Step(pid, a) => pid < |s.procs| && s.procs[pid].Call? && s.procs[pid].req == req ==> a.answer == answer
  }

  ghost predicate QuietRun(cfg: Cfg, s: State, evs: seq<Event>, req: Request, answer: Answer) {
    evs != [] ==>
      && QuietRun(cfg, s, evs[..|evs| - 1], req, answer)
      && QuietEvent(Run(cfg, s, evs[..|evs| - 1]), evs[|evs| - 1], req, answer)
  }

  /** No operator call on `i` has still to set its flag. */
  ghost predicate NoFlagPending(s: State, i: string) {
    forall q :: 0 <= q < |s.procs| && s.procs[q].Operator? && s.procs[q].intentID == i ==> s.procs[q].opPc != SetFlag
  }

  lemma StepKeepsWorld(cfg: Cfg, sh: Shared, p: Proc, a: Ambient, req: Request, answer: Answer)
    requires WellFormed(cfg.hash, sh.ledger)
    requires p.Operator? && p.intentID == req.intentID ==> p.opPc != SetFlag
    ensures WorldNow(Apply(cfg, sh, EffectOf(p, a), a.now), req, answer) == WorldNow(sh, req, answer)
  {
    if EffectOf(p, a).Write? {
      AppendKeepsWellFormed(cfg.hash, sh.ledger, EffectOf(p, a).draft, a.now);
    }
  }

  lemma ExecKeepsNoFlagPending(cfg: Cfg, s: State, ev: Event, req: Request, answer: Answer)
    requires QuietEvent(s, ev, req, answer) && NoFlagPending(s, req.intentID)
    ensures NoFlagPending(Exec(cfg, s, ev), req.intentID)
  {
    var s' := Exec(cfg, s, ev);
    forall q | 0 <= q < |s'.procs| && s'.procs[q].Operator? && s'.procs[q].intentID == req.intentID
      ensures s'.procs[q].opPc != SetFlag
    {
      if q < |s.procs| {
        SameRequest(cfg, s, ev, q);
        assert s.procs[q].intentID == req.intentID;
      }
    }
  }

  lemma ExecKeepsWorld(cfg: Cfg, s: State, ev: Event, req: Request, answer: Answer)
    requires Inv(cfg, s) && QuietEvent(s, ev, req, answer) && NoFlagPending(s, req.intentID)
    ensures NoFlagPending(Exec(cfg, s, ev), req.intentID)
    ensures WorldNow(Exec(cfg, s, ev).shared, req, answer) == WorldNow(s.shared, req, answer)
  {
    ExecKeepsNoFlagPending(cfg, s, ev, req, answer);
    if ev.Step? && ev.pid < |s.procs| {
      StepKeepsWorld(cfg, s.shared, s.procs[ev.pid], ev.a, req, answer);
    }
  }

  lemma {:induction false} RunKeepsWorld(cfg: Cfg, s: State, evs: seq<Event>, req: Request, answer: Answer)
    requires Inv(cfg, s) && QuietRun(cfg, s, evs, req, answer) && NoFlagPending(s, req.intentID)
    ensures NoFlagPending(Run(cfg, s, evs), req.intentID)
    ensures WorldNow(Run(cfg, s, evs).shared, req, answer) == WorldNow(s.shared, req, answer)
  {
    if evs != [] {
      RunKeepsWorld(cfg, s, evs[..|evs| - 1], req, answer);
      RunKeepsInv(cfg, s, evs[..|evs| - 1]);
      ExecKeepsWorld(cfg, Run(cfg, s, evs[..|evs| - 1]), evs[|evs| - 1], req, answer);
    }
  }

  /** Call `q` of request `req` is on its path in `w`. */
  ghost predicate Tracks(cfg: Cfg, s: State, q: nat, req: Request, w: World) {
    && q < |s.procs| && s.procs[q].Call? && s.procs[q].req == req
    && OnPath(cfg, w, s.procs[q]) && Agrees(s.shared, w, s.procs[q])
  }

  /** A step of the call itself. */
  lemma OwnStepTracks(cfg: Cfg, s: State, q: nat, a: Ambient, req: Request, w: World)
    requires Inv(cfg, s) && a.answer == w.answer && NoFlagPending(s, req.intentID) && Tracks(cfg, s, q, req, w)
    ensures Tracks(cfg, Exec(cfg, s, Step(q, a)), q, req, w)
  {
    ExecKeepsWorld(cfg, s, Step(q, a), req, w.answer);
    ExecMakesProgress(cfg, s, Step(q, a), q);
    assert ProcOk(s.shared, s.procs[q]);
    StepStaysOnPath(cfg, s.shared, s.procs[q], a, w);
    SameRequest(cfg, s, Step(q, a), q);
  }

  lemma ExecKeepsTracks(cfg: Cfg, s: State, ev: Event, q: nat, req: Request, w: World)
    requires Inv(cfg, s) && QuietEvent(s, ev, req, w.answer) && NoFlagPending(s, req.intentID)
    requires Tracks(cfg, s, q, req, w)
    ensures Tracks(cfg, Exec(cfg, s, ev), q, req, w)
  {
    if ev.Step? && ev.pid == q {
      OwnStepTracks(cfg, s, q, ev.a, req, w);
    } else {
      ExecKeepsWorld(cfg, s, ev, req, w.answer);
      assert Exec(cfg, s, ev).procs[q] == s.procs[q];
    }
  }

  lemma {:induction false} RunKeepsTracks(cfg: Cfg, s: State, evs: seq<Event>, q: nat, req: Request, w: World)
    requires Inv(cfg, s) && QuietRun(cfg, s, evs, req, w.answer) && NoFlagPending(s, req.intentID)
    requires Tracks(cfg, s, q, req, w)
    ensures Tracks(cfg, Run(cfg, s, evs), q, req, w)
  {
    if evs != [] {
      RunKeepsTracks(cfg, s, evs[..|evs| - 1], q, req, w);
      RunKeepsInv(cfg, s, evs[..|evs| - 1]);
      RunKeepsWorld(cfg, s, evs[..|evs| - 1], req, w.answer);
      ExecKeepsTracks(cfg, Run(cfg, s, evs[..|evs| - 1]), evs[|evs| - 1], q, req, w);
    }
  }

  lemma NewCallTracks(cfg: Cfg, s: State, ev: Event, q: nat, req: Request, w: World)
    requires |s.procs| <= q < |Exec(cfg, s, ev).procs| && Exec(cfg, s, ev).procs[q].Call?
    requires Exec(cfg, s, ev).procs[q].req == req && WorldNow(Exec(cfg, s, ev).shared, req, w.answer) == w
    ensures Tracks(cfg, Exec(cfg, s, ev), q, req, w)
  {
  }

  /** The call has not read anything in `s`, or arrives after it. */
  ghost predicate NotStarted(s: State, q: nat) {
    q < |s.procs| ==> s.procs[q].Call? && s.procs[q].pc.VerifyLedger?
  }

  lemma {:induction false} LaterCallTracks(cfg: Cfg, s: State, evs: seq<Event>, q: nat, req: Request, answer: Answer)
    requires Inv(cfg, s) && QuietRun(cfg, s, evs, req, answer) && NoFlagPending(s, req.intentID) && NotStarted(s, q)
    requires q < |Run(cfg, s, evs).procs| && Run(cfg, s, evs).procs[q].Call? && Run(cfg, s, evs).procs[q].req == req
    ensures Tracks(cfg, Run(cfg, s, evs), q, req, WorldNow(s.shared, req, answer))
    decreases |evs|
  {
    var w := WorldNow(s.shared, req, answer);
    if evs != [] {
      var init, ev := evs[..|evs| - 1], evs[|evs| - 1];
      var mid := Run(cfg, s, init);
      RunKeepsInv(cfg, s, init);
      RunKeepsWorld(cfg, s, init, req, answer);
      if q < |mid.procs| {
        SameRequest(cfg, mid, ev, q);
        LaterCallTracks(cfg, s, init, q, req, answer);
        ExecKeepsTracks(cfg, mid, ev, q, req, w);
      } else {
        ExecKeepsWorld(cfg, mid, ev, req, answer);
        NewCallTracks(cfg, mid, ev, q, req, w);
      }
    }
  }

  /** How a call was decided, once it has been. */
  ghost predicate DecidedAs(p: Proc, v: Verdict) {
    p.Call? &&
    (p.pc.WriteRefusal? || p.pc.ForceRefuse? ==> p.pc.v == v) &&
    (p.pc.Done? && p.pc.end.Refused? ==> p.pc.end.v == v) &&
    (AfterAdmit(p.pc) ==> v == ADMITTED)
  }

  lemma OnPathIsDecided(cfg: Cfg, w: World, p: Proc)
    requires OnPath(cfg, w, p)
    ensures DecidedAs(p, DecisionOf(cfg, p.req, w))
  {
  }

  lemma TracksIsDecided(cfg: Cfg, s: State, q: nat, req: Request, w: World)
    requires Tracks(cfg, s, q, req, w)
    ensures DecidedAs(s.procs[q], DecisionOf(cfg, req, w))
  {
    OnPathIsDecided(cfg, w, s.procs[q]);
  }

  /** Intent isolation: in every reachable state and for every quiet continuation, a request that has not started is
      decided exactly as the gate table says of the present stores, however its steps are interleaved with other
      requests, on its own intent too, and with orders on other intents. */
  lemma InterleavingKeepsTheDecision(cfg: Cfg, s: State, evs: seq<Event>, q: nat, req: Request, answer: Answer)
    requires Reachable(cfg, s) && QuietRun(cfg, s, evs, req, answer)
    requires NoFlagPending(s, req.intentID) && NotStarted(s, q)
    requires q < |Run(cfg, s, evs).procs| && Run(cfg, s, evs).procs[q].Call? && Run(cfg, s, evs).procs[q].req == req
    ensures DecidedAs(Run(cfg, s, evs).procs[q], DecisionOf(cfg, req, WorldNow(s.shared, req, answer)))
  {
    ReachableInv(cfg, s);
    LaterCallTracks(cfg, s, evs, q, req, answer);
    TracksIsDecided(cfg, Run(cfg, s, evs), q, req, WorldNow(s.shared, req, answer));
  }

  lemma DecidedAlike(p: Proc, p': Proc, v: Verdict)
    requires DecidedAs(p, v) && DecidedAs(p', v) && LocalOk(p) && LocalOk(p') && p.pc.Done? && p'.pc.Done?
    ensures p.pc.end.Refused? <==> p'.pc.end.Refused?
    ensures p.pc.end.Refused? ==> p.pc.end.v == p'.pc.end.v
  {
  }

  ghost predicate EndedCall(p: Proc, req: Request) {
    p.Call? && p.req == req && p.pc.Done?
  }

  /** Replay: two calls of one request in a quiet run are refused alike or both admitted. */
  lemma ReplayGivesTheSameDecision(cfg: Cfg, s: State, evs: seq<Event>, q: nat, r: nat, req: Request, answer: Answer)
    requires Reachable(cfg, s) && QuietRun(cfg, s, evs, req, answer) && NoFlagPending(s, req.intentID)
    requires NotStarted(s, q) && NotStarted(s, r)
    requires q < |Run(cfg, s, evs).procs| && r < |Run(cfg, s, evs).procs|
    requires EndedCall(Run(cfg, s, evs).procs[q], req) && EndedCall(Run(cfg, s, evs).procs[r], req)
    ensures Run(cfg, s, evs).procs[q].pc.end.Refused? <==> Run(cfg, s, evs).procs[r].pc.end.Refused?
    ensures Run(cfg, s, evs).procs[q].pc.end.Refused? ==>
              Run(cfg, s, evs).procs[q].pc.end.v == Run(cfg, s, evs).procs[r].pc.end.v
  {
    var s' := Run(cfg, s, evs);
    InterleavingKeepsTheDecision(cfg, s, evs, q, req, answer);
    InterleavingKeepsTheDecision(cfg, s, evs, r, req, answer);
    RunKeepsInvFromReachable(cfg, s, evs);
    assert ProcOk(s'.shared, s'.procs[q]) && ProcOk(s'.shared, s'.procs[r]);
    DecidedAlike(s'.procs[q], s'.procs[r], DecisionOf(cfg, req, WorldNow(s.shared, req, answer)));
  }

  lemma RunKeepsInvFromReachable(cfg: Cfg, s: State, evs: seq<Event>)
    requires Reachable(cfg, s)
    ensures Inv(cfg, Run(cfg, s, evs))
  {
    ReachableInv(cfg, s);
    RunKeepsInv(cfg, s, evs);
  }

  /** The admission entry of a call on its path is the table's verdict, drafted as the router object drafts it. */
  lemma AdmissionEntry(cfg: Cfg, s: State, q: nat, a: Ambient, req: Request, w: World)
    requires Inv(cfg, s) && Tracks(cfg, s, q, req, w) && !AfterAdmit(s.procs[q].pc)
    requires EffectOf(s.procs[q], a).Write?
    ensures EffectOf(s.procs[q], a).draft == VerdictDraft(req, DecisionOf(cfg, req, w), a)
  {
    assert ProcOk(s.shared, s.procs[q]);
  }

  // ---- Orders only take authority away ------------------------------------------------------------------

  /** No event steers drift or registers the provider of `req`. Orders of any kind, on any intent, are allowed. */
  ghost predicate KeepsSetup(evs: seq<Event>, req: Request) {
    forall k :: 0 <= k < |evs| ==> !evs[k].Steer? && evs[k] != Register(req.modelRef.providerID)
  }

  lemma {:induction false} RunKeepsSetup(cfg: Cfg, s: State, evs: seq<Event>, req: Request)
    requires KeepsSetup(evs, req)
    ensures Run(cfg, s, evs).shared.drift == s.shared.drift
    ensures req.modelRef.providerID in Run(cfg, s, evs).shared.providers <==>
            req.modelRef.providerID in s.shared.providers
  {
    if evs != [] {
      var init, ev := evs[..|evs| - 1], evs[|evs| - 1];
      assert KeepsSetup(init, req);
      RunKeepsSetup(cfg, s, init, req);
      ExecKeepsSetup(cfg, Run(cfg, s, init), ev, req);
    }
  }

  lemma ExecKeepsSetup(cfg: Cfg, s: State, ev: Event, req: Request)
    requires !ev.Steer? && ev != Register(req.modelRef.providerID)
    ensures Exec(cfg, s, ev).shared.drift == s.shared.drift
    ensures req.modelRef.providerID in Exec(cfg, s, ev).shared.providers <==>
            req.modelRef.providerID in s.shared.providers
  {
  }

  /** Monotone authority over runs: however many orders, requests and steps come between, a request that would be
      admitted afterwards would have been admitted before. */
  lemma OrdersNeverAdmit(cfg: Cfg, s: State, evs: seq<Event>, req: Request, answer: Answer)
    requires Reachable(cfg, s) && KeepsSetup(evs, req)
    requires DecisionOf(cfg, req, WorldNow(Run(cfg, s, evs).shared, req, answer)).result == Admit
    ensures DecisionOf(cfg, req, WorldNow(s.shared, req, answer)).result == Admit
  {
    ReachableInv(cfg, s);
    RunKeepsInv(cfg, s, evs);
    RunGrows(cfg, s, evs);
    RunKeepsSetup(cfg, s, evs, req);
    var w, v := WorldNow(s.shared, req, answer), WorldNow(Run(cfg, s, evs).shared, req, answer);
    assert MoreOrders(w, v);
    MonotoneAuthority(cfg.tenants, [], cfg.lattice, cfg.lattice, req, w, v);
  }
}
