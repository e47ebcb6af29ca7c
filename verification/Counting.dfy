/** Conservation: what the processes did accounts for every ledger entry. */
module Counting {
  import opened Types
  import opened Ledgers
  import opened Stores
  import opened Admission
  import opened Routing
  import opened Protocol
  import opened Invariants
  import opened Theorems

  function Sum(f: Proc -> nat, ps: seq<Proc>): nat {
    if ps == [] then 0 else Sum(f, ps[..|ps| - 1]) + f(ps[|ps| - 1])
  }

  lemma {:induction false} SumUpdate(f: Proc -> nat, ps: seq<Proc>, q: nat, p: Proc)
    requires q < |ps|
    ensures Sum(f, ps[q := p]) + f(ps[q]) == Sum(f, ps) + f(p)
  {
    var n := |ps| - 1;
    if q < n {
      SumUpdate(f, ps[..n], q, p);
      assert ps[q := p][..n] == ps[..n][q := p];
    } else {
      assert ps[q := p][..n] == ps[..n];
    }
  }

  lemma SumSnoc(f: Proc -> nat, ps: seq<Proc>, p: Proc)
    ensures Sum(f, ps + [p]) == Sum(f, ps) + f(p)
  {
    assert (ps + [p])[..|ps|] == ps;
  }

  lemma {:induction false} SumBelow(f: Proc -> nat, g: Proc -> nat, ps: seq<Proc>)
    requires forall p :: f(p) <= g(p)
    ensures Sum(f, ps) <= Sum(g, ps)
  {
    if ps != [] {
      SumBelow(f, g, ps[..|ps| - 1]);
    }
  }

  // ---- What a process has written --------------------------------------------------------------

  /** The entries a process has written. */
  function Written(p: Proc): nat {
    if p.Operator? then (if p.opPc == OpDone then 1 else 0)
    else if !p.pc.Done? then (if p.out.Some? then 1 else 0)
    else if p.pc.end.Executed? || p.pc.end.ExecutionDenied? || p.pc.end.LateRefused? then 2
    else 1
  }

  /** The entry belongs to decision `d`, or `d` is none in particular. */
  predicate Concerns(e: Entry, d: Option<string>) {
    d.None? || e.decisionID == d.value
  }

  /** The ADMIT entries of decision `d` that a process has written. */
  function Admits(d: Option<string>): Proc -> nat {
    (p: Proc) => if p.Call? && p.out.Some? && Concerns(p.out.value, d) then 1 else 0
  }

  /** The execution entries of decision `d` that a process has written. */
  function Executions(d: Option<string>): Proc -> nat {
    (p: Proc) =>
      if p.Call? && p.out.Some? && Concerns(p.out.value, d) && p.pc.Done? && p.pc.end.Executed? then 1 else 0
  }

  ghost predicate IsAdmitDecision(e: Entry) {
    e.result == Admit && !IsExecution(e)
  }

  ghost function One(b: bool): nat {
    if b then 1 else 0
  }

  ghost function CountAdmits(es: seq<Entry>, d: Option<string>): nat {
    if es == [] then 0
    else CountAdmits(es[..|es| - 1], d) + One(IsAdmitDecision(es[|es| - 1]) && Concerns(es[|es| - 1], d))
  }

  ghost function CountExecutions(es: seq<Entry>, d: Option<string>): nat {
    if es == [] then 0
    else CountExecutions(es[..|es| - 1], d) + One(IsExecution(es[|es| - 1]) && Concerns(es[|es| - 1], d))
  }

  lemma CountSnoc(es: seq<Entry>, e: Entry, d: Option<string>)
    ensures CountAdmits(es + [e], d) == CountAdmits(es, d) + One(IsAdmitDecision(e) && Concerns(e, d))
    ensures CountExecutions(es + [e], d) == CountExecutions(es, d) + One(IsExecution(e) && Concerns(e, d))
  {
    assert (es + [e])[..|es|] == es;
  }

  /** A step's effect on the ledger is exactly what it adds to the process's account. */
  ghost predicate Counted(p: Proc, p': Proc, e: Effect, d: Option<string>) {
    && Written(p') == Written(p) + One(e.Write?)
    && Admits(d)(p') == Admits(d)(p) + One(e.Write? && IsAdmitDecision(e.draft) && Concerns(e.draft, d))
    && Executions(d)(p') == Executions(d)(p) + One(e.Write? && IsExecution(e.draft) && Concerns(e.draft, d))
  }

  /** A step that writes nothing leaves the ADMIT entry and the end of a call alone. */
  lemma SilentStep(cfg: Cfg, sh: Shared, f: Findings, p: Proc, a: Ambient)
    requires p.Call? && ProcOk(sh, p) && !EffectOf(p, a).Write?
    ensures var p' := NextCall(cfg, sh, f, p, a);
            && p'.Call? && p'.out == p.out && GenerateEnded(p') == GenerateEnded(p) && Written(p') == Written(p)
            && (p'.pc.Done? && p'.pc.end.Executed? <==> p.pc.Done? && p.pc.end.Executed?)
            && (p'.out.None? ==> (p'.pc.Done? <==> p.pc.Done?) && (p.pc.Done? ==> p'.pc == p.pc))
  {
  }

  lemma WritingStepIsCounted(cfg: Cfg, sh: Shared, f: Findings, p: Proc, a: Ambient, d: Option<string>)
    requires p.Call? && ProcOk(sh, p) && EffectOf(p, a).Write?
    ensures Counted(p, NextCall(cfg, sh, f, p, a), EffectOf(p, a), d)
  {
    assert p.pc.WriteAdmit? || p.pc.WriteRefusal? || p.pc.Await?;
  }

  lemma CallStepIsCounted(cfg: Cfg, sh: Shared, f: Findings, p: Proc, a: Ambient, d: Option<string>)
    requires p.Call? && ProcOk(sh, p)
    ensures Counted(p, NextCall(cfg, sh, f, p, a), EffectOf(p, a), d)
  {
    if EffectOf(p, a).Write? {
      WritingStepIsCounted(cfg, sh, f, p, a, d);
    } else {
      SilentStep(cfg, sh, f, p, a);
    }
  }

  lemma StepIsCounted(cfg: Cfg, sh: Shared, p: Proc, a: Ambient, d: Option<string>)
    requires ProcOk(sh, p)
    ensures Counted(p, Next(cfg, sh, p, a), EffectOf(p, a), d)
  {
    if p.Call? {
      CallStepIsCounted(cfg, sh, FindingsOf(cfg, sh, p), p, a, d);
    }
  }

  // ---- The accounts balance ---------------------------------------------------------------------

  ghost predicate Balanced(s: State, d: Option<string>) {
    && |s.shared.ledger.entries| == Sum(Written, s.procs)
    && CountAdmits(s.shared.ledger.entries, d) == Sum(Admits(d), s.procs)
    && CountExecutions(s.shared.ledger.entries, d) == Sum(Executions(d), s.procs)
  }

  /** In every prefix of the ledger, executions of `d` never outnumber ADMIT decisions of `d`. */
  ghost predicate NeverAhead(es: seq<Entry>, d: Option<string>) {
    forall n :: 0 <= n <= |es| ==> CountExecutions(es[..n], d) <= CountAdmits(es[..n], d)
  }

  lemma SpawnBalances(s: State, p: Proc, d: Option<string>)
    requires Balanced(s, d) && Written(p) == Admits(d)(p) == Executions(d)(p) == 0
    ensures Balanced(s.(procs := s.procs + [p]), d)
  {
    SumSnoc(Written, s.procs, p);
    SumSnoc(Admits(d), s.procs, p);
    SumSnoc(Executions(d), s.procs, p);
  }

  /** One process changes its account by what it appends. */
  lemma UpdateBalances(s: State, s': State, pid: nat, p': Proc, stored: Option<Entry>, d: Option<string>)
    requires Balanced(s, d) && pid < |s.procs| && s'.procs == s.procs[pid := p']
    requires s'.shared.ledger.entries == s.shared.ledger.entries + if stored.Some? then [stored.value] else []
    requires Written(p') == Written(s.procs[pid]) + One(stored.Some?)
    requires Admits(d)(p') == Admits(d)(s.procs[pid]) +
             One(stored.Some? && IsAdmitDecision(stored.value) && Concerns(stored.value, d))
    requires Executions(d)(p') == Executions(d)(s.procs[pid]) +
             One(stored.Some? && IsExecution(stored.value) && Concerns(stored.value, d))
    ensures Balanced(s', d)
  {
    SumUpdate(Written, s.procs, pid, p');
    SumUpdate(Admits(d), s.procs, pid, p');
    SumUpdate(Executions(d), s.procs, pid, p');
    if stored.Some? {
      CountSnoc(s.shared.ledger.entries, stored.value, d);
    } else {
      assert s'.shared.ledger.entries == s.shared.ledger.entries;
    }
  }

  /** What an effect leaves in the ledger. */
  ghost function StoredBy(cfg: Cfg, sh: Shared, e: Effect, now: int): Option<Entry> {
    if e.Write? then Some(Stamp(cfg.hash, sh.ledger, e.draft, now)) else None
  }

  lemma ApplyStores(cfg: Cfg, sh: Shared, e: Effect, now: int)
    ensures var stored := StoredBy(cfg, sh, e, now);
            Apply(cfg, sh, e, now).ledger.entries == sh.ledger.entries + if stored.Some? then [stored.value] else []
  {
  }

  lemma StepBalances(cfg: Cfg, s: State, pid: nat, a: Ambient, d: Option<string>)
    requires Balanced(s, d) && pid < |s.procs| && ProcOk(s.shared, s.procs[pid])
    ensures Balanced(Exec(cfg, s, Step(pid, a)), d)
  {
    var p := s.procs[pid];
    StepIsCounted(cfg, s.shared, p, a, d);
    ApplyStores(cfg, s.shared, EffectOf(p, a), a.now);
    UpdateBalances(s, Exec(cfg, s, Step(pid, a)), pid, Next(cfg, s.shared, p, a),
                   StoredBy(cfg, s.shared, EffectOf(p, a), a.now), d);
  }

  lemma ExecBalances(cfg: Cfg, s: State, ev: Event, d: Option<string>)
    requires Inv(cfg, s) && Balanced(s, d)
    ensures Balanced(Exec(cfg, s, ev), d)
  {
    match ev
    case Arrive(req, execute) => SpawnBalances(s, NewCall(req, execute), d);
    case Order(or) => SpawnBalances(s, Operator(or.action, or.intentID, SetFlag), d);
    case Step(pid, a) =>
      if pid < |s.procs| {
        StepBalances(cfg, s, pid, a, d);
      }
    case _ =>
  }

  lemma NeverAheadGrows(es: seq<Entry>, t: seq<Entry>, d: Option<string>)
    requires NeverAhead(es, d) && es <= t && |t| <= |es| + 1 && CountExecutions(t, d) <= CountAdmits(t, d)
    ensures NeverAhead(t, d)
  {
    forall n | 0 <= n <= |t| ensures CountExecutions(t[..n], d) <= CountAdmits(t[..n], d) {
      if n <= |es| {
        assert t[..n] == es[..n];
      } else {
        assert t[..n] == t;
      }
    }
  }

  lemma {:induction false} RunBalances(cfg: Cfg, evs: seq<Event>, d: Option<string>)
    ensures Balanced(Run(cfg, INIT, evs), d)
    ensures NeverAhead(Run(cfg, INIT, evs).shared.ledger.entries, d)
  {
    if evs != [] {
      var init, ev := evs[..|evs| - 1], evs[|evs| - 1];
      RunBalances(cfg, init, d);
      InitInv(cfg);
      RunKeepsInv(cfg, INIT, init);
      ExecBalances(cfg, Run(cfg, INIT, init), ev, d);
      ExecGrows(cfg, Run(cfg, INIT, init), ev);
      ExecAppends(cfg, Run(cfg, INIT, init), ev);
      SumBelow(Executions(d), Admits(d), Run(cfg, INIT, evs).procs);
      NeverAheadGrows(Run(cfg, INIT, init).shared.ledger.entries, Run(cfg, INIT, evs).shared.ledger.entries, d);
    }
  }

  /** In every prefix of every reachable ledger, executions never outnumber ADMIT decisions: not altogether, and not
      for any one decision id. */
  lemma ExecutionsNeverOutnumberAdmits(cfg: Cfg, s: State, n: nat, d: Option<string>)
    requires Reachable(cfg, s) && n <= |s.shared.ledger.entries|
    ensures CountExecutions(s.shared.ledger.entries[..n], d) <= CountAdmits(s.shared.ledger.entries[..n], d)
  {
    var evs :| s == Run(cfg, INIT, evs);
    RunBalances(cfg, evs, d);
  }

  function OneCall(p: Proc): nat {
    if p.Call? then 1 else 0
  }

  function OneOrder(p: Proc): nat {
    if p.Operator? then 1 else 0
  }

  predicate GenerateEnded(p: Proc) {
    p.Call? && p.pc.Done? && (p.pc.end.Executed? || p.pc.end.ExecutionDenied?)
  }

  function OneGeneration(p: Proc): nat {
    if GenerateEnded(p) then 1 else 0
  }

  lemma {:induction false} EndedSums(sh: Shared, ps: seq<Proc>)
    requires forall q :: 0 <= q < |ps| ==> ProcOk(sh, ps[q]) && Remaining(ps[q]) == 0
    ensures Sum(Written, ps) == Sum(OneCall, ps) + Sum(OneGeneration, ps) + Sum(OneOrder, ps)
  {
    if ps != [] {
      var init, p := ps[..|ps| - 1], ps[|ps| - 1];
      EndedSums(sh, init);
      assert ProcOk(sh, p);
    }
  }

  /** Ledger conservation: when every call has ended, the ledger holds one entry for each admission, one more for
      each that reached Generate, and one for each accepted operator order. */
  lemma LedgerConservation(cfg: Cfg, s: State)
    requires Reachable(cfg, s)
    requires forall q :: 0 <= q < |s.procs| ==> Remaining(s.procs[q]) == 0
    ensures |s.shared.ledger.entries| == Sum(OneCall, s.procs) + Sum(OneGeneration, s.procs) + Sum(OneOrder, s.procs)
  {
    var evs :| s == Run(cfg, INIT, evs);
    RunBalances(cfg, evs, None);
    ReachableInv(cfg, s);
    EndedSums(s.shared, s.procs);
  }

  // ---- Who wrote what ------------------------------------------------------------------------------

  /** The ledger positions that process `q` has written. */
  ghost function Positions(authors: seq<nat>, q: nat): set<int> {
    set j | 0 <= j < |authors| && authors[j] == q
  }

  /** The positions a process has written are exactly what it has to show for itself: nothing before its decision,
      one entry for a refusal or an order, its ADMIT entry, and after Generate that entry and one more. */
  ghost predicate AccountOk(es: seq<Entry>, mine: set<int>, p: Proc) {
    match p
    case Operator(action, intentID, opPc) =>
      if opPc.OpDone? then
        |mine| == 1 && forall j :: j in mine ==> 0 <= j < |es| && RecordsOrder(es[j], action, intentID)
      else mine == {}
    case Call(req, _, pc, _, out) =>
      if out.Some? then mine == if GenerateEnded(p) then {out.value.index, pc.end.entry.index} else {out.value.index}
      else if pc.Done? && pc.end.Refused? then
        |mine| == 1 && forall j :: j in mine ==> 0 <= j < |es| && Records(es[j], req, pc.end.v)
      else mine == {}
  }

  lemma AccountGrows(es: seq<Entry>, es': seq<Entry>, mine: set<int>, p: Proc)
    requires es <= es' && AccountOk(es, mine, p)
    ensures AccountOk(es', mine, p)
  {
  }

  /** A step adds the position it writes, if any, to its own account. */
  lemma StepKeepsAccount(cfg: Cfg, sh: Shared, p: Proc, a: Ambient, mine: set<int>)
    requires ProcOk(sh, p) && CacheOk(sh.ledger) && AccountOk(sh.ledger.entries, mine, p)
    ensures var n := |sh.ledger.entries|;
            AccountOk(Apply(cfg, sh, EffectOf(p, a), a.now).ledger.entries,
                      mine + if EffectOf(p, a).Write? then {n} else {}, Next(cfg, sh, p, a))
  {
    if p.Call? {
      CallStepKeepsAccount(cfg, sh, FindingsOf(cfg, sh, p), p, a, mine);
    }
  }

  lemma CallStepKeepsAccount(cfg: Cfg, sh: Shared, f: Findings, p: Proc, a: Ambient, mine: set<int>)
    requires p.Call? && ProcOk(sh, p) && CacheOk(sh.ledger) && AccountOk(sh.ledger.entries, mine, p)
    ensures var n := |sh.ledger.entries|;
            AccountOk(Apply(cfg, sh, EffectOf(p, a), a.now).ledger.entries,
                      mine + if EffectOf(p, a).Write? then {n} else {}, NextCall(cfg, sh, f, p, a))
  {
    if !EffectOf(p, a).Write? {
      SilentStepKeepsAccount(cfg, sh, f, p, a, mine);
      assert mine + {} == mine;
    } else if p.pc.WriteRefusal? {
      RefusalKeepsAccount(cfg, sh, f, p, a);
      assert mine + {|sh.ledger.entries|} == {|sh.ledger.entries|};
    } else {
      AdmitAndExecuteKeepAccount(cfg, sh, f, p, a, mine);
    }
  }

  lemma SilentStepKeepsAccount(cfg: Cfg, sh: Shared, f: Findings, p: Proc, a: Ambient, mine: set<int>)
    requires p.Call? && ProcOk(sh, p) && AccountOk(sh.ledger.entries, mine, p) && !EffectOf(p, a).Write?
    ensures Apply(cfg, sh, EffectOf(p, a), a.now).ledger.entries == sh.ledger.entries
    ensures AccountOk(sh.ledger.entries, mine, NextCall(cfg, sh, f, p, a))
  {
    SilentStep(cfg, sh, f, p, a);
  }

  lemma RefusalKeepsAccount(cfg: Cfg, sh: Shared, f: Findings, p: Proc, a: Ambient)
    requires p.Call? && ProcOk(sh, p) && p.pc.WriteRefusal?
    ensures AccountOk(Apply(cfg, sh, EffectOf(p, a), a.now).ledger.entries, {|sh.ledger.entries|},
                      NextCall(cfg, sh, f, p, a))
  {
    var es := Apply(cfg, sh, EffectOf(p, a), a.now).ledger.entries;
    assert Records(es[|sh.ledger.entries|], p.req, p.pc.v);
  }

  lemma AdmitAndExecuteKeepAccount(cfg: Cfg, sh: Shared, f: Findings, p: Proc, a: Ambient, mine: set<int>)
    requires p.Call? && ProcOk(sh, p) && CacheOk(sh.ledger) && AccountOk(sh.ledger.entries, mine, p)
    requires EffectOf(p, a).Write? && !p.pc.WriteRefusal?
    ensures AccountOk(Apply(cfg, sh, EffectOf(p, a), a.now).ledger.entries, mine + {|sh.ledger.entries|},
                      NextCall(cfg, sh, f, p, a))
  {
    assert p.pc.WriteAdmit? || p.pc.Await?;
  }

  lemma PositionsGrow(authors: seq<nat>, more: seq<nat>, q: nat)
    requires |more| <= 1
    ensures Positions(authors + more, q) == Positions(authors, q) + if more == [q] then {|authors|} else {}
  {
  }

  /** The ledger is exactly what its processes wrote, each entry by one of them. */
  ghost predicate Attributed(s: State, authors: seq<nat>) {
    && |authors| == |s.shared.ledger.entries|
    && (forall j :: 0 <= j < |authors| ==> authors[j] < |s.procs|)
    && forall q: nat :: q < |s.procs| ==> AccountOk(s.shared.ledger.entries, Positions(authors, q), s.procs[q])
  }

  lemma OthersUnmoved(cfg: Cfg, s: State, ev: Event, q: nat)
    requires q < |s.procs| && (ev.Step? ==> ev.pid != q)
    ensures q < |Exec(cfg, s, ev).procs| && Exec(cfg, s, ev).procs[q] == s.procs[q] && AuthorAt(s, ev) != [q]
  {
  }

  lemma OwnStepKeepsAccount(cfg: Cfg, s: State, q: nat, a: Ambient, mine: set<int>)
    requires Inv(cfg, s) && q < |s.procs| && AccountOk(s.shared.ledger.entries, mine, s.procs[q])
    ensures AccountOk(Exec(cfg, s, Step(q, a)).shared.ledger.entries,
                      mine + if AuthorAt(s, Step(q, a)) == [q] then {|s.shared.ledger.entries|} else {},
                      Exec(cfg, s, Step(q, a)).procs[q])
  {
    assert ProcOk(s.shared, s.procs[q]);
    StepKeepsAccount(cfg, s.shared, s.procs[q], a, mine);
  }

  lemma ExecKeepsAccount(cfg: Cfg, s: State, ev: Event, authors: seq<nat>, q: nat)
    requires Inv(cfg, s) && Attributed(s, authors) && q < |Exec(cfg, s, ev).procs|
    ensures AccountOk(Exec(cfg, s, ev).shared.ledger.entries, Positions(authors + AuthorAt(s, ev), q),
                      Exec(cfg, s, ev).procs[q])
  {
    var s' := Exec(cfg, s, ev);
    var mine := Positions(authors, q);
    PositionsGrow(authors, AuthorAt(s, ev), q);
    if q >= |s.procs| {
      assert mine == {};
    } else if ev.Step? && ev.pid == q {
      OwnStepKeepsAccount(cfg, s, q, ev.a, mine);
    } else {
      OthersUnmoved(cfg, s, ev, q);
      ExecGrows(cfg, s, ev);
      AccountGrows(s.shared.ledger.entries, s'.shared.ledger.entries, mine, s.procs[q]);
    }
  }

  lemma ExecKeepsAttributed(cfg: Cfg, s: State, ev: Event, authors: seq<nat>)
    requires Inv(cfg, s) && Attributed(s, authors)
    ensures Attributed(Exec(cfg, s, ev), authors + AuthorAt(s, ev))
  {
    ExecAppends(cfg, s, ev);
    ExecGrows(cfg, s, ev);
    forall q: nat | q < |Exec(cfg, s, ev).procs|
      ensures AccountOk(Exec(cfg, s, ev).shared.ledger.entries, Positions(authors + AuthorAt(s, ev), q),
                        Exec(cfg, s, ev).procs[q])
    {
      ExecKeepsAccount(cfg, s, ev, authors, q);
    }
  }

  /** In every run each ledger entry has exactly one author, and each process has written exactly what it has to show:
      so no two calls share an entry, and none is unaccounted for. */
  lemma {:induction false} EveryEntryHasOneAuthor(cfg: Cfg, evs: seq<Event>)
    ensures Attributed(Run(cfg, INIT, evs), Authors(cfg, INIT, evs))
  {
    if evs != [] {
      var init := evs[..|evs| - 1];
      EveryEntryHasOneAuthor(cfg, init);
      InitInv(cfg);
      RunKeepsInv(cfg, INIT, init);
      ExecKeepsAttributed(cfg, Run(cfg, INIT, init), evs[|evs| - 1], Authors(cfg, INIT, init));
    }
  }

  /** Each Generate that has ended left exactly one entry after its call's ADMIT entry, and the call wrote no other:
      an execution bound to that admission, or a provider.execution refusal. The provider never vanishes in between. */
  lemma GenerateLeavesOneEntry(cfg: Cfg, evs: seq<Event>, q: nat)
    requires q < |Run(cfg, INIT, evs).procs|
    requires Run(cfg, INIT, evs).procs[q].Call? && Run(cfg, INIT, evs).procs[q].pc.Done?
    ensures var s := Run(cfg, INIT, evs);
            var p, es := s.procs[q], s.shared.ledger.entries;
            && !p.pc.end.LateRefused?
            && (GenerateStarted(p) ==>
                  && p.out.Some? && Stored(es, p.out.value) && Stored(es, p.pc.end.entry)
                  && p.out.value.index < p.pc.end.entry.index
                  && Positions(Authors(cfg, INIT, evs), q) == {p.out.value.index, p.pc.end.entry.index})
            && (GenerateStarted(p) ==> p.execute)
            && (p.pc.end.Executed? ==>
                  && IsExecution(p.pc.end.entry) && SameSubject(p.pc.end.entry, p.req)
                  && IsExecutionOf(p.pc.end.entry, p.out.value.decisionID, p.pc.end.entry.executionHash))
            // The reason is the timeout exactly if Generate timed out, and the stage record the adapter's own error.
            && (p.pc.end.ExecutionDenied? ==>
                  var e, how := p.pc.end.entry, p.pc.end.how;
                  && SameSubject(e, p.req) && !e.admitted && !IsExecution(e) && e.result == Deny
                  && e.rule == ProviderExecution
                  && e.reason == (if how.TimedOut? then ExecutionTimedOut else ExecutionFailed)
                  && (how.TimedOut? || how.Failed?)
                  && e.stageLog == [StageRecord(ProviderStage, false,
                       if how.TimedOut? then ExecutionTimedOut else AdapterSays(how.why), ProviderExecution)])
  {
    var s := Run(cfg, INIT, evs);
    InitInv(cfg);
    RunKeepsInv(cfg, INIT, evs);
    EveryEntryHasOneAuthor(cfg, evs);
    assert ProcOk(s.shared, s.procs[q]) && EndOk(s.shared, s.procs[q]);
  }
}
