/** A correction that races an admission. The source means an order issued while a request passes the gates
    to win; for corrections `Admit` keeps that promise only until stage 6 has read them. `Precedence` says when exactly;
    here are the verdict such a race ends in and a run in which the correction is missed. */
module Races {
  import opened Types
  import opened Ledgers
  import opened Stores
  import opened Usl
  import opened Gre
  import opened Admission
  import opened Routing
  import opened Protocol
  import opened Invariants
  import opened Theorems
  import opened Isolation
  import opened Precedence

  // ---- The verdict -------------------------------------------------------------------------------------

  /** Only gate 12 looks at corrections. */
  lemma CorrectionGate(cfg: Cfg, req: Request, w: World, directive: string)
    ensures var w' := w.(correction := Some(directive));
            && (forall n :: 0 <= n <= 12 && Through(GatesOf(cfg, req, w), n) ==> Through(GatesOf(cfg, req, w'), n))
            && (Through(GatesOf(cfg, req, w), 12) ==>
                  DecisionOf(cfg, req, w') == StageRefusal(5, CorrectionActive(directive), Lambda6))
  {
    var w' := w.(correction := Some(directive));
    var gs, hs := GatesOf(cfg, req, w), GatesOf(cfg, req, w');
    assert forall j :: 0 <= j < 12 ==> gs[j].ok == hs[j].ok;
    if Through(gs, 12) {
      DecidedAt(cfg.tenants, cfg.lattice, req, w', 12);
    }
  }

  /** A correction that lands while stage 6 still has to read it puts the call on the path of the corrected world. */
  lemma EarlyCorrectionTracks(cfg: Cfg, p: Proc, w: World, directive: string)
    requires p.Call? && OnPath(cfg, w, p) && StageSixAhead(p)
    ensures OnPath(cfg, w.(correction := Some(directive)), p)
  {
    CorrectionGate(cfg, p.req, w, directive);
  }

  ghost predicate IsCorrector(p: Proc, i: string) {
    IsOrdering(p, i) && p.action.Correct?
  }

  /** The state once operator call `r` has set its correction. */
  ghost function Corrected(cfg: Cfg, s: State, r: nat, a: Ambient): State {
    Exec(cfg, s, Step(r, a))
  }

  lemma CorrectedTracks(cfg: Cfg, s: State, r: nat, a: Ambient, q: nat, req: Request, w: World)
    requires Inv(cfg, s) && r < |s.procs| && IsCorrector(s.procs[r], req.intentID)
    requires Tracks(cfg, s, q, req, w)
    ensures var w' := if StageSixAhead(s.procs[q]) then w.(correction := Some(s.procs[r].action.directive)) else w;
            Tracks(cfg, Corrected(cfg, s, r, a), q, req, w')
  {
    if StageSixAhead(s.procs[q]) {
      EarlyCorrectionTracks(cfg, s.procs[q], w, s.procs[r].action.directive);
    }
  }

  /** The verdict a race ends in. A request that every gate would admit, and one correction on its intent in a run that
      is quiet otherwise: set before stage 6 has read corrections, it makes `Admit` refuse with the verdict of stage 6;
      set later, it leaves the decision ADMIT, and only the final check before Generate sees it. */
  lemma CorrectionVerdict(cfg: Cfg, s: State, r: nat, a: Ambient, evs: seq<Event>, q: nat, req: Request, w: World)
    requires Reachable(cfg, s) && r < |s.procs| && IsCorrector(s.procs[r], req.intentID)
    requires Tracks(cfg, s, q, req, w) && DecisionOf(cfg, req, w) == ADMITTED
    requires NoFlagPending(Corrected(cfg, s, r, a), req.intentID)
    requires QuietRun(cfg, Corrected(cfg, s, r, a), evs, req, w.answer)
    requires q < |Run(cfg, Corrected(cfg, s, r, a), evs).procs|
    requires LeftAdmit(Run(cfg, Corrected(cfg, s, r, a), evs).procs[q])
    ensures Run(cfg, Corrected(cfg, s, r, a), evs).procs[q].out.Some? <==> !StageSixAhead(s.procs[q])
    ensures StageSixAhead(s.procs[q]) ==>
              Run(cfg, Corrected(cfg, s, r, a), evs).procs[q].pc
              == Done(Refused(StageRefusal(5, CorrectionActive(s.procs[r].action.directive), Lambda6)))
  {
    ReachableInv(cfg, s);
    var s1 := Corrected(cfg, s, r, a);
    ExecKeepsInv(cfg, s, Step(r, a));
    CorrectedTracks(cfg, s, r, a, q, req, w);
    var directive := s.procs[r].action.directive;
    var w' := if StageSixAhead(s.procs[q]) then w.(correction := Some(directive)) else w;
    RunKeepsTracks(cfg, s1, evs, q, req, w');
    TracksIsDecided(cfg, Run(cfg, s1, evs), q, req, w');
    RunKeepsInv(cfg, s1, evs);
    if StageSixAhead(s.procs[q]) {
      AdmittedIffAdmissible(cfg.tenants, cfg.lattice, req, w);
      CorrectionGate(cfg, req, w, directive);
    }
    OutcomeOf(Run(cfg, s1, evs).shared, Run(cfg, s1, evs).procs[q], DecisionOf(cfg, req, w'));
  }

  lemma OutcomeOf(sh: Shared, p: Proc, v: Verdict)
    requires ProcOk(sh, p) && DecidedAs(p, v) && LeftAdmit(p)
    ensures p.out.Some? <==> v.result == Admit
    ensures v.result != Admit ==> p.pc == Done(Refused(v))
  {
  }

  // ---- An input that shows it ------------------------------------------------------------------------

  function Repeat(q: nat, a: Ambient, n: nat): seq<Event> {
    if n == 0 then [] else Repeat(q, a, n - 1) + [Step(q, a)]
  }

  lemma RepeatUnfolds(cfg: Cfg, s: State, q: nat, a: Ambient, n: nat)
    requires n > 0
    ensures Run(cfg, s, Repeat(q, a, n)) == Exec(cfg, Run(cfg, s, Repeat(q, a, n - 1)), Step(q, a))
  {
    var evs := Repeat(q, a, n);
    assert evs[..|evs| - 1] == Repeat(q, a, n - 1);
  }

  /** A step of a call that every gate admits goes to the next program point. */
  lemma StraightStep(cfg: Cfg, s: State, q: nat, req: Request, w: World, a: Ambient)
    requires Inv(cfg, s) && Tracks(cfg, s, q, req, w) && a.answer == w.answer && NoFlagPending(s, req.intentID)
    requires DecisionOf(cfg, req, w) == ADMITTED && Remaining(s.procs[q]) > 9
    ensures Tracks(cfg, Exec(cfg, s, Step(q, a)), q, req, w)
    ensures Remaining(Exec(cfg, s, Step(q, a)).procs[q]) == Remaining(s.procs[q]) - 1
  {
    ExecKeepsTracks(cfg, s, Step(q, a), q, req, w);
    ExecKeepsInv(cfg, s, Step(q, a));
    var s' := Exec(cfg, s, Step(q, a));
    assert ProcOk(s'.shared, s'.procs[q]);
    NextIsStraight(cfg, s.shared, FindingsOf(cfg, s.shared, s.procs[q]), s.procs[q], a);
  }

  lemma NextIsStraight(cfg: Cfg, sh: Shared, f: Findings, p: Proc, a: Ambient)
    requires p.Call? && LocalOk(p) && Remaining(p) > 9
    ensures var p' := NextCall(cfg, sh, f, p, a);
            p'.pc.WriteRefusal? || p'.pc.ForceRefuse? || Remaining(p') == Remaining(p) - 1
  {
  }

  /** Nobody but `q` has moved. */
  ghost predicate SameOthers(s0: State, s: State, q: nat) {
    |s.procs| == |s0.procs| && forall r :: 0 <= r < |s.procs| && r != q ==> s.procs[r] == s0.procs[r]
  }

  /** Call `q` runs alone towards its ADMIT, `left` steps from its end. */
  ghost predicate Cruises(cfg: Cfg, s0: State, s: State, q: nat, req: Request, w: World, left: nat) {
    && Inv(cfg, s) && Tracks(cfg, s, q, req, w) && NoFlagPending(s, req.intentID)
    && Remaining(s.procs[q]) == left && SameOthers(s0, s, q)
  }

  lemma CruiseStep(cfg: Cfg, s0: State, s: State, s': State, q: nat, req: Request, w: World, left: nat, a: Ambient)
    requires Cruises(cfg, s0, s, q, req, w, left + 1) && left >= 9 && s' == Exec(cfg, s, Step(q, a))
    requires a.answer == w.answer && DecisionOf(cfg, req, w) == ADMITTED
    ensures Cruises(cfg, s0, s', q, req, w, left)
  {
    StraightStep(cfg, s, q, req, w, a);
    ExecKeepsInv(cfg, s, Step(q, a));
    ExecKeepsWorld(cfg, s, Step(q, a), req, w.answer);
    assert SameOthers(s0, s', q);
  }

  lemma {:induction false} Cruise(cfg: Cfg, s: State, q: nat, req: Request, w: World, left: nat, a: Ambient, n: nat)
    requires Cruises(cfg, s, s, q, req, w, left + n) && left >= 9
    requires a.answer == w.answer && DecisionOf(cfg, req, w) == ADMITTED
    ensures Cruises(cfg, s, Run(cfg, s, Repeat(q, a, n)), q, req, w, left)
    decreases n
  {
    if n > 0 {
      Cruise(cfg, s, q, req, w, left + 1, a, n - 1);
      var mid, s' := Run(cfg, s, Repeat(q, a, n - 1)), Run(cfg, s, Repeat(q, a, n));
      RepeatUnfolds(cfg, s, q, a, n);
      CruiseStep(cfg, s, mid, s', q, req, w, left, a);
    }
  }

  // One tenant in the SAFE lane with one grant, and a request that it admits.
  const CAPABILITY := Capability("c", "s", "a", "r")
  const TENANT := TenantPolicy("t", "t", LANE_SAFE, ["c"], [], [], [], false, "t-ns", "")
  const REQUEST := Request("q", "t", LANE_SAFE, CAPABILITY, "i", "o", ModelRef("p", "m", ""), "x")
  const YES := Ambient(0, "d", "e", Answer(true, ""), TimedOut)

  function DemoCfg(h: Entry -> string): Cfg {
    Cfg([TENANT], [Grant(CAPABILITY, [LANE_SAFE])], h)
  }

  lemma DemoIsAdmissible(h: Entry -> string)
    ensures DecisionOf(DemoCfg(h), REQUEST, CALM) == ADMITTED
  {
    var cfg := DemoCfg(h);
    var gs := GatesOf(cfg, REQUEST, CALM);
    assert TENANT in cfg.tenants;
    assert Grant(CAPABILITY, [LANE_SAFE]) in cfg.lattice;
    assert FindTenant(cfg.tenants, "t") == 0 && FindInLane(cfg.tenants, "t", LANE_SAFE) == 0;
    assert Through(gs, 18);
    AdmittedIffAdmissible(cfg.tenants, cfg.lattice, REQUEST, CALM);
  }

  /** The provider is registered and the request has arrived. */
  const OPENING: seq<Event> := [Register("p"), Arrive(REQUEST, false)]

  const OPENED := State(INIT.shared.(providers := {"p"}), [NewCall(REQUEST, false)])

  lemma OpeningOpens(h: Entry -> string)
    ensures Run(DemoCfg(h), INIT, OPENING) == OPENED
    ensures Cruises(DemoCfg(h), OPENED, OPENED, 0, REQUEST, CALM, 27)
  {
    var cfg := DemoCfg(h);
    assert OPENING[..1] == [Register("p")];
    assert OPENING[..1][..0] == [];
    assert Run(cfg, INIT, OPENING[..1]) == INIT.(shared := OPENED.shared);
    InitInv(cfg);
    RunKeepsInv(cfg, INIT, OPENING);
  }

  const CORRECTION := Order(OperatorRequest("i", "o", Correct("stop")))

  /** A correction of the request's intent is accepted. */
  lemma CorrectionArrives(cfg: Cfg, s: State)
    requires Cruises(cfg, OPENED, s, 0, REQUEST, CALM, 13)
    ensures Exec(cfg, s, CORRECTION) == s.(procs := s.procs + [Operator(Correct("stop"), "i", SetFlag)])
    ensures Inv(cfg, Exec(cfg, s, CORRECTION)) && Tracks(cfg, Exec(cfg, s, CORRECTION), 0, REQUEST, CALM)
  {
    ExecKeepsInv(cfg, s, CORRECTION);
    assert Exec(cfg, s, CORRECTION).procs[0] == s.procs[0];
  }

  /** And set. */
  lemma CorrectionLands(cfg: Cfg, s: State)
    requires Inv(cfg, s) && Tracks(cfg, s, 0, REQUEST, CALM) && |s.procs| == 2 && Remaining(s.procs[0]) == 13
    requires s.procs[1] == Operator(Correct("stop"), "i", SetFlag)
    ensures var s' := Corrected(cfg, s, 1, YES);
            Cruises(cfg, s', s', 0, REQUEST, CALM, 13) && "i" in s'.shared.flags.corrected
  {
    ExecKeepsInv(cfg, s, Step(1, YES));
    CorrectedTracks(cfg, s, 1, YES, 0, REQUEST, CALM);
    CorrectorMoves(cfg, s);
  }

  lemma CorrectorMoves(cfg: Cfg, s: State)
    requires |s.procs| == 2 && s.procs[0].Call? && s.procs[1] == Operator(Correct("stop"), "i", SetFlag)
    ensures var s' := Corrected(cfg, s, 1, YES);
            && s'.procs == [s.procs[0], Operator(Correct("stop"), "i", ForceState)]
            && NoFlagPending(s', "i") && "i" in s'.shared.flags.corrected
  {
    var s' := Corrected(cfg, s, 1, YES);
    assert s'.procs[0] == s.procs[0] && s'.procs[1] == Operator(Correct("stop"), "i", ForceState);
  }

  lemma LastStepAdmits(cfg: Cfg, s: State)
    requires Inv(cfg, s) && |s.procs| > 0 && s.procs[0].Call? && Remaining(s.procs[0]) == 9
    ensures var s' := Exec(cfg, s, Step(0, YES)); |s'.procs| > 0 && s'.procs[0].Call? && AfterAdmit(s'.procs[0].pc)
  {
    assert ProcOk(s.shared, s.procs[0]);
    WriteAdmits(cfg, s.shared, FindingsOf(cfg, s.shared, s.procs[0]), s.procs[0], YES);
  }

  lemma WriteAdmits(cfg: Cfg, sh: Shared, f: Findings, p: Proc, a: Ambient)
    requires p.Call? && LocalOk(p) && Remaining(p) == 9
    ensures AfterAdmit(NextCall(cfg, sh, f, p, a).pc)
  {
    assert p.pc.WriteAdmit?;
  }

  /** In `s` a correction is in force and call 0 has not left `Admit`; after `evs` it has been admitted. */
  ghost predicate Missed(cfg: Cfg, s: State, evs: seq<Event>) {
    && Reachable(cfg, s) && |s.procs| > 0 && s.procs[0].Call?
    && s.procs[0].req.intentID in s.shared.flags.corrected && !LeftAdmit(s.procs[0])
    && var s' := Run(cfg, s, evs); |s'.procs| > 0 && s'.procs[0].Call? && AfterAdmit(s'.procs[0].pc)
  }

  /** Up to stage 6 and the pipeline's end. */
  lemma DemoOpening(h: Entry -> string) returns (s: State)
    ensures Reachable(DemoCfg(h), s) && Cruises(DemoCfg(h), OPENED, s, 0, REQUEST, CALM, 13)
  {
    var cfg := DemoCfg(h);
    DemoIsAdmissible(h);
    OpeningOpens(h);
    Cruise(cfg, OPENED, 0, REQUEST, CALM, 13, YES, 14);
    s := Run(cfg, OPENED, Repeat(0, YES, 14));
    ReachableOn(cfg, OPENED, Repeat(0, YES, 14));
  }

  /** Up to the correction. */
  lemma DemoBefore(h: Entry -> string) returns (s: State)
    ensures Reachable(DemoCfg(h), s) && Cruises(DemoCfg(h), s, s, 0, REQUEST, CALM, 13)
    ensures "i" in s.shared.flags.corrected
  {
    var cfg := DemoCfg(h);
    var s1 := DemoOpening(h);
    CorrectionArrives(cfg, s1);
    ReachableNext(cfg, s1, CORRECTION);
    var s2 := s1.(procs := s1.procs + [Operator(Correct("stop"), "i", SetFlag)]);
    CorrectionLands(cfg, s2);
    ReachableNext(cfg, s2, Step(1, YES));
    s := Corrected(cfg, s2, 1, YES);
  }

  /** After it. */
  lemma DemoAfter(h: Entry -> string, s: State)
    requires Cruises(DemoCfg(h), s, s, 0, REQUEST, CALM, 13)
    ensures var s' := Run(DemoCfg(h), s, Repeat(0, YES, 5));
            |s'.procs| > 0 && s'.procs[0].Call? && AfterAdmit(s'.procs[0].pc)
  {
    DemoIsAdmissible(h);
    Cruise(DemoCfg(h), s, 0, REQUEST, CALM, 9, YES, 4);
    RepeatUnfolds(DemoCfg(h), s, 0, YES, 5);
    LastStepAdmits(DemoCfg(h), Run(DemoCfg(h), s, Repeat(0, YES, 4)));
  }

  lemma NotYetOut(s: State)
    requires |s.procs| > 0 && s.procs[0].Call? && Remaining(s.procs[0]) == 13
    ensures !LeftAdmit(s.procs[0])
  {
  }

  /** A run in which a correction is in force while its request is still before the ADMIT entry, and the request is
      admitted all the same. */
  lemma LateCorrectionIsMissed(h: Entry -> string)
    ensures exists s, evs :: Missed(DemoCfg(h), s, evs)
  {
    var s := DemoBefore(h);
    DemoAfter(h, s);
    NotYetOut(s);
    assert Missed(DemoCfg(h), s, Repeat(0, YES, 5));
  }
}
