/** What holds of every run of the interleaved router, from a new router or from any state named. */
module Theorems {
  import opened Types
  import opened Ledgers
  import opened Stores
  import opened Gre
  import opened Admission
  import opened Routing
  import opened Protocol
  import opened Invariants

  /** Some run of a new router ends here. */
  ghost predicate Reachable(cfg: Cfg, s: State) {
    exists evs :: s == Run(cfg, INIT, evs)
  }

  lemma ReachableInv(cfg: Cfg, s: State)
    requires Reachable(cfg, s)
    ensures Inv(cfg, s)
  {
    var evs :| s == Run(cfg, INIT, evs);
    InitInv(cfg);
    RunKeepsInv(cfg, INIT, evs);
  }

  lemma {:induction false} RunConcat(cfg: Cfg, s: State, a: seq<Event>, b: seq<Event>)
    ensures Run(cfg, s, a + b) == Run(cfg, Run(cfg, s, a), b)
    decreases |b|
  {
    if b == [] {
      assert a + b == a;
    } else {
      RunConcat(cfg, s, a, b[..|b| - 1]);
      assert (a + b)[..|a + b| - 1] == a + b[..|b| - 1];
    }
  }

  lemma RunOne(cfg: Cfg, s: State, ev: Event)
    ensures Run(cfg, s, [ev]) == Exec(cfg, s, ev)
  {
    assert [ev][..0] == [];
  }

  lemma ReachableOn(cfg: Cfg, s: State, evs: seq<Event>)
    requires Reachable(cfg, s)
    ensures Reachable(cfg, Run(cfg, s, evs))
  {
    var a :| s == Run(cfg, INIT, a);
    RunConcat(cfg, INIT, a, evs);
  }

  lemma ReachableNext(cfg: Cfg, s: State, ev: Event)
    requires Reachable(cfg, s)
    ensures Reachable(cfg, Exec(cfg, s, ev))
  {
    RunOne(cfg, s, ev);
    ReachableOn(cfg, s, [ev]);
  }

  /** A process stays what it is, for the same request. */
  lemma SameRequest(cfg: Cfg, s: State, ev: Event, q: nat)
    requires q < |s.procs|
    ensures q < |Exec(cfg, s, ev).procs|
    ensures s.procs[q].Call? <==> Exec(cfg, s, ev).procs[q].Call?
    ensures s.procs[q].Call? ==> s.procs[q].req == Exec(cfg, s, ev).procs[q].req
  {
  }

  // ---- Ledger -----------------------------------------------------------------------------------

  /** Every reachable ledger is a sealed chain with a true cache, and verifies with no breaks. */
  lemma ReachableLedgerVerifies(cfg: Cfg, s: State)
    requires Reachable(cfg, s)
    ensures WellFormed(cfg.hash, s.shared.ledger)
    ensures IsVerification(s.shared.ledger.entries, true, 0)
  {
    ReachableInv(cfg, s);
    NoBadLinks(s.shared.ledger.entries);
  }

  /** The audit invariant of every reachable ledger. */
  lemma ReachableLedgerIsAuditable(cfg: Cfg, s: State, j: nat)
    requires Reachable(cfg, s) && j < |s.shared.ledger.entries|
    ensures AuditOk(s.shared.ledger.entries[j])
  {
    ReachableInv(cfg, s);
  }

  /** Execution provenance: an execution follows an ADMIT of the same decision, request, intent, tenant,
      lane, capability and provider, with all nine stages passed. */
  lemma ExecutionProvenance(cfg: Cfg, s: State, j: nat)
    requires Reachable(cfg, s) && j < |s.shared.ledger.entries|
    requires IsExecution(s.shared.ledger.entries[j])
    ensures AdmittedBefore(s.shared.ledger.entries, j)
    ensures var e := s.shared.ledger.entries[j]; IsExecutionOf(e, e.decisionID, e.executionHash)
  {
    ReachableInv(cfg, s);
  }

  /** So the evidence record of a decision is never that of an execution, even if decision ids repeat. */
  lemma CerIsNeverAnExecution(cfg: Cfg, s: State, decisionID: string, k: nat)
    requires Reachable(cfg, s) && FirstWithDecision(s.shared.ledger.entries, k, decisionID)
    ensures !IsExecution(s.shared.ledger.entries[k])
  {
    if IsExecution(s.shared.ledger.entries[k]) {
      ExecutionProvenance(cfg, s, k);
    }
  }

  // ---- Execution states ---------------------------------------------------------------------------

  /** An operator call on `i` that has set its flag and not yet forced the state. */
  ghost predicate IsForcing(p: Proc, i: string) {
    p.Operator? && p.intentID == i && p.opPc == ForceState
  }

  ghost predicate ForcePending(s: State, i: string) {
    exists q :: 0 <= q < |s.procs| && IsForcing(s.procs[q], i)
  }

  ghost predicate OrdersForced(s: State) {
    forall i :: HasOrder(s.shared.flags, i) ==> Current(s.shared.exec, i).IsTerminal() || ForcePending(s, i)
  }

  /** A step leaves terminal states terminal, and the RUNNING attempt changes nothing. */
  lemma StepKeepsTerminal(cfg: Cfg, sh: Shared, p: Proc, a: Ambient, i: string)
    requires ProcOk(sh, p) && ExecBacked(sh)
    ensures Current(sh.exec, i).IsTerminal() ==> Current(Apply(cfg, sh, EffectOf(p, a), a.now).exec, i).IsTerminal()
    ensures EffectOf(p, a).TryRunning? ==> Apply(cfg, sh, EffectOf(p, a), a.now) == sh
  {
  }

  lemma {:induction false} TerminalIsAbsorbing(cfg: Cfg, s: State, evs: seq<Event>, i: string)
    requires Inv(cfg, s) && Current(s.shared.exec, i).IsTerminal()
    ensures Current(Run(cfg, s, evs).shared.exec, i).IsTerminal()
  {
    if evs != [] {
      var mid, ev := Run(cfg, s, evs[..|evs| - 1]), evs[|evs| - 1];
      TerminalIsAbsorbing(cfg, s, evs[..|evs| - 1], i);
      RunKeepsInv(cfg, s, evs[..|evs| - 1]);
      if ev.Step? && ev.pid < |mid.procs| {
        StepKeepsTerminal(cfg, mid.shared, mid.procs[ev.pid], ev.a, i);
      }
    }
  }

  lemma ExecKeepsOrdersForced(cfg: Cfg, s: State, ev: Event)
    requires Inv(cfg, s) && OrdersForced(s)
    ensures OrdersForced(Exec(cfg, s, ev))
  {
    var s' := Exec(cfg, s, ev);
    forall i | HasOrder(s'.shared.flags, i) ensures Current(s'.shared.exec, i).IsTerminal() || ForcePending(s', i) {
      if ev.Step? && ev.pid < |s.procs| {
        var p := s.procs[ev.pid];
        StepKeepsTerminal(cfg, s.shared, p, ev.a, i);
        if p.Operator? && p.intentID == i && p.opPc == SetFlag {
          assert IsForcing(s'.procs[ev.pid], i);
        } else if ForcePending(s, i) {
          var q :| 0 <= q < |s.procs| && IsForcing(s.procs[q], i);
          assert q != ev.pid ==> s'.procs[q] == s.procs[q];
        }
      } else if ForcePending(s, i) {
        var q :| 0 <= q < |s.procs| && IsForcing(s.procs[q], i);
        assert s'.procs[q] == s.procs[q];
      }
    }
  }

  lemma {:induction false} RunKeepsOrdersForced(cfg: Cfg, s: State, evs: seq<Event>)
    requires Inv(cfg, s) && OrdersForced(s)
    ensures OrdersForced(Run(cfg, s, evs))
  {
    if evs != [] {
      RunKeepsOrdersForced(cfg, s, evs[..|evs| - 1]);
      RunKeepsInv(cfg, s, evs[..|evs| - 1]);
      ExecKeepsOrdersForced(cfg, Run(cfg, s, evs[..|evs| - 1]), evs[|evs| - 1]);
    }
  }

  /** Execution states agree with operator orders in every reachable state. ADMITTED and RUNNING do not occur;
      TERMINATED and HALTED are backed by an order; and unless an operator call is between its first two steps,
      an intent is in a terminal state exactly when it carries an order. */
  lemma ExecAgreesWithOrders(cfg: Cfg, s: State, i: string)
    requires Reachable(cfg, s)
    ensures var st := Current(s.shared.exec, i);
            && !st.AdmittedState? && !st.Running?
            && (st.Terminated? ==> i in s.shared.flags.terminated)
            && (st.Halted? ==> i in s.shared.flags.interrupted || i in s.shared.flags.corrected)
    ensures !ForcePending(s, i) ==> (Current(s.shared.exec, i).IsTerminal() <==> HasOrder(s.shared.flags, i))
  {
    ReachableInv(cfg, s);
    var evs :| s == Run(cfg, INIT, evs);
    InitInv(cfg);
    RunKeepsOrdersForced(cfg, INIT, evs);
    assert i in s.shared.exec ==> Backed(s.shared.flags, i, s.shared.exec[i]);
  }

  // ---- Progress -------------------------------------------------------------------------------------

  /** The most steps a process can still take. */
  function Remaining(p: Proc): nat {
    match p
    case Operator(_, _, opPc) => (
      match opPc case SetFlag => 3 case ForceState => 2 case WriteOrder => 1 case OpDone => 0)
    case Call(_, _, pc, _, _) => (
      match pc
      case VerifyLedger => 27
      case ReadTerminated => 26
      case ReadInterrupted => 25
      case Pipeline(k) => if k < 5 then 24 - k else if k < 9 then 22 - k else 0
      case StageTerminated => 19
      case StageInterrupted => 18
      case StageCorrection => 17
      case Lookup => 13
      case AskAdapter => 12
      case FlightTerminated => 11
      case FlightInterrupted => 10
      case WriteAdmit => 9
      case FinalTerminated => 8
      case FinalCorrection => 7
      case FinalInterrupted(_) => 6
      case ReadCurrent => 5
      case MarkRunning(_) => 4
      case LookupAgain => 3
      case StartGenerate => 2
      case Await => 1
      case ForceRefuse(_, _) => 2
      case WriteRefusal(_) => 1
      case ForceStop(_, _) => 1
      case WriteLate(_) => 1
      case Done(_) => 0)
  }

  function OwnSteps(evs: seq<Event>, q: nat): nat {
    if evs == [] then 0
    else OwnSteps(evs[..|evs| - 1], q) + if evs[|evs| - 1].Step? && evs[|evs| - 1].pid == q then 1 else 0
  }

  lemma StepMakesProgress(cfg: Cfg, sh: Shared, f: Findings, p: Proc, a: Ambient)
    requires p.Call? && LocalOk(p) && Remaining(p) > 0
    ensures Remaining(NextCall(cfg, sh, f, p, a)) < Remaining(p)
  {
  }

  lemma ExecMakesProgress(cfg: Cfg, s: State, ev: Event, q: nat)
    requires Inv(cfg, s) && q < |s.procs|
    ensures q < |Exec(cfg, s, ev).procs|
    ensures if ev.Step? && ev.pid == q && Remaining(s.procs[q]) > 0
            then Remaining(Exec(cfg, s, ev).procs[q]) < Remaining(s.procs[q])
            else Exec(cfg, s, ev).procs[q] == s.procs[q]
  {
    var p := s.procs[q];
    if ev.Step? && ev.pid == q && p.Call? && Remaining(p) > 0 {
      StepMakesProgress(cfg, s.shared, FindingsOf(cfg, s.shared, p), p, ev.a);
    }
  }

  /** Wait freedom: whatever else runs, every call and every operator action ends within 27 of its own steps. */
  lemma EveryCallEnds(cfg: Cfg, s: State, evs: seq<Event>, q: nat)
    requires Inv(cfg, s) && q < |s.procs|
    ensures q < |Run(cfg, s, evs).procs|
    ensures Remaining(Run(cfg, s, evs).procs[q]) + OwnSteps(evs, q) <= Remaining(s.procs[q])
            || Remaining(Run(cfg, s, evs).procs[q]) == 0
    ensures OwnSteps(evs, q) >= 27 ==> Remaining(Run(cfg, s, evs).procs[q]) == 0
  {
    CallComesCloser(cfg, s, evs, q);
    assert Remaining(s.procs[q]) <= 27;
  }

  lemma {:induction false} CallComesCloser(cfg: Cfg, s: State, evs: seq<Event>, q: nat)
    requires Inv(cfg, s) && q < |s.procs|
    ensures q < |Run(cfg, s, evs).procs|
    ensures Remaining(Run(cfg, s, evs).procs[q]) + OwnSteps(evs, q) <= Remaining(s.procs[q])
            || Remaining(Run(cfg, s, evs).procs[q]) == 0
  {
    if evs != [] {
      CallComesCloser(cfg, s, evs[..|evs| - 1], q);
      RunKeepsInv(cfg, s, evs[..|evs| - 1]);
      ExecMakesProgress(cfg, Run(cfg, s, evs[..|evs| - 1]), evs[|evs| - 1], q);
    }
  }

  // ---- Operator precedence -----------------------------------------------------------------------------

  /** The final termination read (line 215) is ahead: the call is at FinalTerminated or before it. */
  ghost predicate TerminationReadAhead(p: Proc) {
    Remaining(p) >= 8
  }

  /** The correction read of line 219 is ahead. */
  ghost predicate CorrectionReadAhead(p: Proc) {
    Remaining(p) >= 7
  }

  /** The interrupt read of line 219 is ahead. */
  ghost predicate InterruptReadAhead(p: Proc) {
    Remaining(p) >= 6
  }

  /** The call still has a final read ahead at which an order on its intent is seen. */
  ghost predicate OrderInTime(f: Flags, p: Proc)
    requires p.Call?
  {
    var i := p.req.intentID;
    || (i in f.terminated && TerminationReadAhead(p))
    || (i in f.corrected && CorrectionReadAhead(p))
    || (i in f.interrupted && InterruptReadAhead(p))
  }

  /** The call will never start Generate. */
  ghost predicate Blocked(f: Flags, p: Proc) {
    p.Call? && !GenerateStarted(p) && (
      || OrderInTime(f, p)
      || (p.pc.FinalInterrupted? && p.pc.directive != "")
      || p.pc.ForceRefuse? || p.pc.WriteRefusal? || p.pc.ForceStop? || p.pc.WriteLate? || p.pc.Done?)
  }

  lemma StepKeepsBlocked(cfg: Cfg, sh: Shared, f: Findings, p: Proc, a: Ambient)
    requires p.Call? && LocalOk(p) && DirectivesNonEmpty(sh) && Blocked(sh.flags, p)
    ensures Blocked(sh.flags, NextCall(cfg, sh, f, p, a))
  {
  }

  lemma ExecKeepsBlocked(cfg: Cfg, s: State, ev: Event, q: nat)
    requires Inv(cfg, s) && q < |s.procs| && Blocked(s.shared.flags, s.procs[q])
    ensures q < |Exec(cfg, s, ev).procs|
    ensures Blocked(Exec(cfg, s, ev).shared.flags, Exec(cfg, s, ev).procs[q])
  {
    ExecGrows(cfg, s, ev);
    if ev.Step? && ev.pid == q {
      StepKeepsBlocked(cfg, s.shared, FindingsOf(cfg, s.shared, s.procs[q]), s.procs[q], ev.a);
    }
  }

  /** A call that stays blocked writes no execution. */
  lemma BlockedWritesNoExecution(p: Proc, a: Ambient)
    requires p.Call? && !GenerateStarted(p) && LocalOk(p) && EffectOf(p, a).Write?
    ensures !IsExecution(EffectOf(p, a).draft)
  {
  }

  /** None of the entries that the run appended for process `q` is an execution. */
  ghost predicate WroteNoExecution(cfg: Cfg, s: State, evs: seq<Event>, q: nat) {
    var es := Run(cfg, s, evs).shared.ledger.entries;
    forall k :: |s.shared.ledger.entries| <= k < |es| && AuthorOf(cfg, s, evs, k) == q ==> !IsExecution(es[k])
  }

  /** The process that appended entry `k` during the run. */
  ghost function AuthorOf(cfg: Cfg, s: State, evs: seq<Event>, k: int): nat
    requires |s.shared.ledger.entries| <= k < |Run(cfg, s, evs).shared.ledger.entries|
  {
    RunGrows(cfg, s, evs);
    Authors(cfg, s, evs)[k - |s.shared.ledger.entries|]
  }

  /** One more event adds at most one entry and one author. */
  lemma AuthorOfLonger(cfg: Cfg, s: State, evs: seq<Event>, k: int)
    requires evs != [] && |s.shared.ledger.entries| <= k < |Run(cfg, s, evs).shared.ledger.entries|
    ensures var init, mid := evs[..|evs| - 1], Run(cfg, s, evs[..|evs| - 1]);
            if k < |mid.shared.ledger.entries| then
              && Run(cfg, s, evs).shared.ledger.entries[k] == mid.shared.ledger.entries[k]
              && AuthorOf(cfg, s, evs, k) == AuthorOf(cfg, s, init, k)
            else
              && AuthorAt(mid, evs[|evs| - 1]) == [AuthorOf(cfg, s, evs, k)]
              && k == |mid.shared.ledger.entries|
  {
    RunGrows(cfg, s, evs);
    RunGrows(cfg, s, evs[..|evs| - 1]);
    ExecGrows(cfg, Run(cfg, s, evs[..|evs| - 1]), evs[|evs| - 1]);
  }

  lemma {:induction false} RunKeepsBlocked(cfg: Cfg, s: State, evs: seq<Event>, q: nat)
    requires Inv(cfg, s) && q < |s.procs| && Blocked(s.shared.flags, s.procs[q])
    ensures q < |Run(cfg, s, evs).procs|
    ensures Blocked(Run(cfg, s, evs).shared.flags, Run(cfg, s, evs).procs[q])
  {
    if evs != [] {
      RunKeepsBlocked(cfg, s, evs[..|evs| - 1], q);
      RunKeepsInv(cfg, s, evs[..|evs| - 1]);
      ExecKeepsBlocked(cfg, Run(cfg, s, evs[..|evs| - 1]), evs[|evs| - 1], q);
    }
  }

  /** A new entry by a blocked call is no execution. */
  lemma ExecWritesNoExecution(cfg: Cfg, s: State, ev: Event, q: nat)
    requires Inv(cfg, s) && q < |s.procs| && Blocked(s.shared.flags, s.procs[q]) && AuthorAt(s, ev) == [q]
    ensures var n, es := |s.shared.ledger.entries|, Exec(cfg, s, ev).shared.ledger.entries;
            n < |es| && !IsExecution(es[n])
  {
    assert ProcOk(s.shared, s.procs[q]);
    BlockedWritesNoExecution(s.procs[q], ev.a);
  }

  lemma {:induction false} BlockedRunWritesNoExecution(cfg: Cfg, s: State, evs: seq<Event>, q: nat)
    requires Inv(cfg, s) && q < |s.procs| && Blocked(s.shared.flags, s.procs[q])
    ensures WroteNoExecution(cfg, s, evs, q)
  {
    if evs != [] {
      var init, ev := evs[..|evs| - 1], evs[|evs| - 1];
      var es := Run(cfg, s, evs).shared.ledger.entries;
      BlockedRunWritesNoExecution(cfg, s, init, q);
      forall k | |s.shared.ledger.entries| <= k < |es| && AuthorOf(cfg, s, evs, k) == q ensures !IsExecution(es[k]) {
        AuthorOfLonger(cfg, s, evs, k);
        if k == |Run(cfg, s, init).shared.ledger.entries| {
          RunKeepsBlocked(cfg, s, init, q);
          RunKeepsInv(cfg, s, init);
          ExecWritesNoExecution(cfg, Run(cfg, s, init), ev, q);
        }
      }
    }
  }

  /** Operator precedence: if an order on a request's intent takes effect before the matching final read, that
      request never starts Generate and never writes an execution entry, in any continuation of the run. */
  lemma OperatorPrecedence(cfg: Cfg, s: State, evs: seq<Event>, q: nat)
    requires Reachable(cfg, s) && q < |s.procs| && s.procs[q].Call?
    requires OrderInTime(s.shared.flags, s.procs[q]) && !GenerateStarted(s.procs[q])
    ensures q < |Run(cfg, s, evs).procs| && !GenerateStarted(Run(cfg, s, evs).procs[q])
    ensures WroteNoExecution(cfg, s, evs, q)
  {
    ReachableInv(cfg, s);
    RunKeepsBlocked(cfg, s, evs, q);
    BlockedRunWritesNoExecution(cfg, s, evs, q);
  }

  /** The converse: only an order stops an admitted execution. On an intent without orders, a governed execution that
      was admitted and has ended did start Generate. */
  lemma OnlyOrdersStopExecution(cfg: Cfg, s: State, q: nat)
    requires Reachable(cfg, s) && q < |s.procs| && s.procs[q].Call? && s.procs[q].pc.Done? && s.procs[q].execute
    requires !HasOrder(s.shared.flags, s.procs[q].req.intentID) && !s.procs[q].pc.end.Refused?
    ensures GenerateStarted(s.procs[q])
  {
    ReachableInv(cfg, s);
    assert ProcOk(s.shared, s.procs[q]);
  }

  ghost predicate OfIntent(p: Proc, i: string) {
    p.Call? && p.req.intentID == i
  }

  /** Requests on `i` that have started Generate. */
  ghost function Started(s: State, i: string): set<int> {
    set q | 0 <= q < |s.procs| && OfIntent(s.procs[q], i) && GenerateStarted(s.procs[q])
  }

  /** A call of `i` that can still reach the end of a Generate: no order is ahead of it and it has not ended. */
  ghost predicate CanExecute(s: State, q: int, i: string) {
    0 <= q < |s.procs| && OfIntent(s.procs[q], i) && !Blocked(s.shared.flags, s.procs[q]) && !s.procs[q].pc.Done?
  }

  /** Requests on `i` that await the end of Generate. */
  ghost function Awaiting(s: State, i: string): set<int> {
    set q | 0 <= q < |s.procs| && CanExecute(s, q, i) && s.procs[q].pc.Await?
  }

  /** Requests on `i` that have neither started Generate nor an order to stop ahead of them. */
  ghost function PastCheck(s: State, i: string): set<int> {
    set q | 0 <= q < |s.procs| && CanExecute(s, q, i) && !s.procs[q].pc.Await?
  }

  /** The executions of `i` that the ledger holds from position `from` on. */
  ghost function ExecutionsFrom(es: seq<Entry>, from: nat, i: string): set<int> {
    set j | from <= j < |es| && es[j].intentID == i && IsExecution(es[j])
  }

  /** A blocked or ended call stays so, and starts no Generate. */
  lemma ExecKeepsIdle(cfg: Cfg, s: State, ev: Event, q: nat)
    requires Inv(cfg, s) && q < |s.procs| && s.procs[q].Call?
    requires Blocked(s.shared.flags, s.procs[q]) || s.procs[q].pc.Done?
    ensures var s' := Exec(cfg, s, ev);
            && q < |s'.procs| && s'.procs[q].Call?
            && (Blocked(s'.shared.flags, s'.procs[q]) || s'.procs[q].pc.Done?)
            && (GenerateStarted(s'.procs[q]) ==> GenerateStarted(s.procs[q]))
  {
    if Blocked(s.shared.flags, s.procs[q]) {
      ExecKeepsBlocked(cfg, s, ev, q);
    } else {
      ExecMakesProgress(cfg, s, ev, q);
    }
  }

  /** A call that has just arrived on an intent with an order is blocked. */
  lemma NewCallIsBlocked(cfg: Cfg, s: State, ev: Event, q: nat)
    requires |s.procs| <= q < |Exec(cfg, s, ev).procs| && Exec(cfg, s, ev).procs[q].Call?
    requires HasOrder(s.shared.flags, Exec(cfg, s, ev).procs[q].req.intentID)
    ensures Blocked(Exec(cfg, s, ev).shared.flags, Exec(cfg, s, ev).procs[q])
  {
    NewCallIsFresh(cfg, s, ev, q);
    ExecGrows(cfg, s, ev);
  }

  /** Once `i` carries an order, no call joins those that can execute, and one that starts Generate was among them. */
  lemma ExecKeepsCanExecute(cfg: Cfg, s: State, ev: Event, q: int, i: string)
    requires Inv(cfg, s) && HasOrder(s.shared.flags, i)
    ensures CanExecute(Exec(cfg, s, ev), q, i) || q in Started(Exec(cfg, s, ev), i) ==>
              CanExecute(s, q, i) || q in Started(s, i)
    ensures CanExecute(Exec(cfg, s, ev), q, i) ==> CanExecute(s, q, i)
  {
    var s' := Exec(cfg, s, ev);
    if 0 <= q < |s'.procs| && OfIntent(s'.procs[q], i) {
      if q < |s.procs| {
        SameRequest(cfg, s, ev, q);
        if !CanExecute(s, q, i) {
          ExecKeepsIdle(cfg, s, ev, q);
        }
      } else {
        NewCallIsBlocked(cfg, s, ev, q);
      }
    }
  }

  /** An execution of `i` is written only by a call that could execute, and ends it. */
  lemma ExecutionEndsCall(cfg: Cfg, s: State, ev: Event, i: string)
    requires Inv(cfg, s) && HasOrder(s.shared.flags, i)
    ensures var n, es := |s.shared.ledger.entries|, Exec(cfg, s, ev).shared.ledger.entries;
            n < |es| && es[n].intentID == i && IsExecution(es[n]) ==>
              ev.Step? && CanExecute(s, ev.pid, i) && !CanExecute(Exec(cfg, s, ev), ev.pid, i)
  {
    var n, es := |s.shared.ledger.entries|, Exec(cfg, s, ev).shared.ledger.entries;
    if n < |es| && es[n].intentID == i && IsExecution(es[n]) {
      ExecutionIsAwaited(cfg, s, ev);
      AwaitedCanExecute(cfg, s, ev.pid, ev.a);
    }
  }

  lemma AwaitedCanExecute(cfg: Cfg, s: State, q: nat, a: Ambient)
    requires q < |s.procs| && s.procs[q].Call? && s.procs[q].pc.Await?
    ensures CanExecute(s, q, s.procs[q].req.intentID)
    ensures !CanExecute(Exec(cfg, s, Step(q, a)), q, s.procs[q].req.intentID)
  {
    AwaitEnds(cfg, s.shared, FindingsOf(cfg, s.shared, s.procs[q]), s.procs[q], a);
  }

  lemma ExecutionIsAwaited(cfg: Cfg, s: State, ev: Event)
    requires Inv(cfg, s)
    ensures var n, es := |s.shared.ledger.entries|, Exec(cfg, s, ev).shared.ledger.entries;
            n < |es| && IsExecution(es[n]) ==>
              && ev.Step? && ev.pid < |s.procs| && s.procs[ev.pid].Call? && s.procs[ev.pid].pc.Await?
              && es[n].intentID == s.procs[ev.pid].req.intentID
  {
    ExecAppends(cfg, s, ev);
    if |AuthorAt(s, ev)| > 0 {
      assert ProcOk(s.shared, s.procs[ev.pid]);
      NewEntryIsStamped(cfg, s, ev);
      if IsExecution(EffectOf(s.procs[ev.pid], ev.a).draft) {
        ExecutionDraftIsAwaited(s.procs[ev.pid], ev.a);
      }
    }
  }

  lemma NewEntryIsStamped(cfg: Cfg, s: State, ev: Event)
    requires |AuthorAt(s, ev)| > 0
    ensures Exec(cfg, s, ev).shared.ledger.entries == s.shared.ledger.entries +
              [Stamp(cfg.hash, s.shared.ledger, EffectOf(s.procs[ev.pid], ev.a).draft, ev.a.now)]
  {
  }

  lemma ExecutionDraftIsAwaited(p: Proc, a: Ambient)
    requires EffectOf(p, a).Write? && IsExecution(EffectOf(p, a).draft)
    ensures p.Call? && p.pc.Await? && EffectOf(p, a).draft.intentID == p.req.intentID
  {
  }

  lemma AwaitEnds(cfg: Cfg, sh: Shared, f: Findings, p: Proc, a: Ambient)
    requires p.Call? && p.pc.Await?
    ensures NextCall(cfg, sh, f, p, a).pc.Done?
  {
  }

  ghost function Executors(s: State, i: string): set<int> {
    set q | 0 <= q < |s.procs| && CanExecute(s, q, i)
  }

  lemma ExecShrinksExecutors(cfg: Cfg, s: State, ev: Event, i: string)
    requires Inv(cfg, s) && HasOrder(s.shared.flags, i)
    ensures Executors(Exec(cfg, s, ev), i) <= Executors(s, i)
  {
    forall q | q in Executors(Exec(cfg, s, ev), i) ensures q in Executors(s, i) {
      ExecKeepsCanExecute(cfg, s, ev, q, i);
    }
  }

  /** What an extension by at most one entry does to the executions of `i`. */
  lemma ExecutionsGrow(es: seq<Entry>, es': seq<Entry>, from: nat, i: string)
    requires from <= |es| && es <= es' && |es'| <= |es| + 1
    ensures ExecutionsFrom(es', from, i) == ExecutionsFrom(es, from, i) +
            if |es| < |es'| && es'[|es|].intentID == i && IsExecution(es'[|es|]) then {|es|} else {}
  {
  }

  lemma ExecSpendsExecutors(cfg: Cfg, s: State, ev: Event, from: nat, i: string)
    requires Inv(cfg, s) && HasOrder(s.shared.flags, i) && from <= |s.shared.ledger.entries|
    ensures var s' := Exec(cfg, s, ev);
            |ExecutionsFrom(s'.shared.ledger.entries, from, i)| + |Executors(s', i)|
            <= |ExecutionsFrom(s.shared.ledger.entries, from, i)| + |Executors(s, i)|
  {
    var s' := Exec(cfg, s, ev);
    ExecGrows(cfg, s, ev);
    ExecAppends(cfg, s, ev);
    ExecShrinksExecutors(cfg, s, ev, i);
    ExecutionEndsCall(cfg, s, ev, i);
    SpendsOne(s.shared.ledger.entries, s'.shared.ledger.entries, from, i, Executors(s, i), Executors(s', i),
              if ev.Step? then ev.pid else 0);
  }

  /** An execution is paid for by one executor. */
  lemma SpendsOne(es: seq<Entry>, es': seq<Entry>, from: nat, i: string, live: set<int>, live': set<int>, pid: int)
    requires from <= |es| && es <= es' && |es'| <= |es| + 1 && live' <= live
    requires |es| < |es'| && es'[|es|].intentID == i && IsExecution(es'[|es|]) ==> pid in live && pid !in live'
    ensures |ExecutionsFrom(es', from, i)| + |live'| <= |ExecutionsFrom(es, from, i)| + |live|
  {
    ExecutionsGrow(es, es', from, i);
    if |es| < |es'| && es'[|es|].intentID == i && IsExecution(es'[|es|]) {
      SmallerSet(live', live - {pid});
    } else {
      SmallerSet(live', live);
    }
  }

  lemma SmallerSet(a: set<int>, b: set<int>)
    requires a <= b
    ensures |a| <= |b|
  {
    assert b == a + (b - a);
  }

  lemma {:induction false} RunSpendsExecutors(cfg: Cfg, s: State, evs: seq<Event>, i: string)
    requires Inv(cfg, s) && HasOrder(s.shared.flags, i)
    ensures HasOrder(Run(cfg, s, evs).shared.flags, i) && Executors(Run(cfg, s, evs), i) <= Executors(s, i)
    ensures Started(Run(cfg, s, evs), i) - Started(s, i) <= PastCheck(s, i)
    ensures |ExecutionsFrom(Run(cfg, s, evs).shared.ledger.entries, |s.shared.ledger.entries|, i)|
            + |Executors(Run(cfg, s, evs), i)| <= |Executors(s, i)|
  {
    var n := |s.shared.ledger.entries|;
    if evs == [] {
      assert ExecutionsFrom(s.shared.ledger.entries, n, i) == {};
    } else {
      var init, ev := evs[..|evs| - 1], evs[|evs| - 1];
      var mid := Run(cfg, s, init);
      RunSpendsExecutors(cfg, s, init, i);
      RunKeepsInv(cfg, s, init);
      RunGrows(cfg, s, init);
      ExecSpendsExecutors(cfg, mid, ev, n, i);
      ExecShrinksExecutors(cfg, mid, ev, i);
      ExecGrows(cfg, mid, ev);
      forall q | q in Started(Run(cfg, s, evs), i) - Started(s, i) ensures q in PastCheck(s, i) {
        ExecKeepsCanExecute(cfg, mid, ev, q, i);
        if q !in Started(mid, i) {
          assert q in Executors(mid, i);
          AwaitingHasStarted(cfg, s, q, i);
        }
      }
    }
  }

  lemma AwaitingHasStarted(cfg: Cfg, s: State, q: int, i: string)
    requires CanExecute(s, q, i) && q !in Started(s, i)
    ensures q in PastCheck(s, i)
  {
  }

  lemma PastCheckIsPast(s: State, i: string, q: int)
    requires q in PastCheck(s, i)
    ensures i in s.shared.flags.terminated ==> !TerminationReadAhead(s.procs[q])
    ensures i in s.shared.flags.corrected ==> !CorrectionReadAhead(s.procs[q])
    ensures i in s.shared.flags.interrupted ==> !InterruptReadAhead(s.procs[q])
  {
    assert !OrderInTime(s.shared.flags, s.procs[q]);
  }

  /** Once an order on an intent is in force, whatever arrives later: Generate starts for it only in requests that were
      already past the read that would have seen the order (line 215 for a termination), so in at most that many; and
      the ledger gains at most one execution of the intent for each of these and for each Generate under way. */
  lemma OrderBoundsGenerate(cfg: Cfg, s: State, evs: seq<Event>, i: string)
    requires Reachable(cfg, s) && HasOrder(s.shared.flags, i)
    ensures Started(Run(cfg, s, evs), i) - Started(s, i) <= PastCheck(s, i)
    ensures |Started(Run(cfg, s, evs), i) - Started(s, i)| <= |PastCheck(s, i)|
    ensures i in s.shared.flags.terminated ==> forall q :: q in PastCheck(s, i) ==> !TerminationReadAhead(s.procs[q])
    ensures i in s.shared.flags.corrected ==> forall q :: q in PastCheck(s, i) ==> !CorrectionReadAhead(s.procs[q])
    ensures i in s.shared.flags.interrupted ==> forall q :: q in PastCheck(s, i) ==> !InterruptReadAhead(s.procs[q])
    ensures |ExecutionsFrom(Run(cfg, s, evs).shared.ledger.entries, |s.shared.ledger.entries|, i)|
            <= |PastCheck(s, i)| + |Awaiting(s, i)|
    ensures PastCheck(s, i) + Awaiting(s, i) == {} ==>
              ExecutionsFrom(Run(cfg, s, evs).shared.ledger.entries, |s.shared.ledger.entries|, i) == {}
  {
    ReachableInv(cfg, s);
    RunSpendsExecutors(cfg, s, evs, i);
    SmallerSet(Started(Run(cfg, s, evs), i) - Started(s, i), PastCheck(s, i));
    assert Executors(s, i) == PastCheck(s, i) + Awaiting(s, i);
    forall q | q in PastCheck(s, i)
      ensures i in s.shared.flags.terminated ==> !TerminationReadAhead(s.procs[q])
      ensures i in s.shared.flags.corrected ==> !CorrectionReadAhead(s.procs[q])
      ensures i in s.shared.flags.interrupted ==> !InterruptReadAhead(s.procs[q])
    {
      PastCheckIsPast(s, i, q);
    }
  }

  const TERMINATED_VERDICT := Verdict(Deny, OperatorTermination, Lambda6, ErrTerminated,
    [StageRecord(OperatorCorrigibility, false, OperatorTermination, Lambda6)])

  /** A call that is being, or has been, refused with the verdict `v`, or has not read anything yet. */
  ghost predicate HeadedFor(p: Proc, v: Verdict) {
    p.Call? &&
    match p.pc
    case VerifyLedger => true
    case ForceRefuse(_, w) => w == v
    case WriteRefusal(w) => w == v
    case Done(end) => end == Refused(v)
    case _ => false
  }

  /** Refused as terminated, or about to be. */
  ghost predicate Doomed(f: Flags, p: Proc) {
    && p.Call? && p.req.intentID in f.terminated
    && (HeadedFor(p, TERMINATED_VERDICT) || p.pc.ReadTerminated?)
  }

  lemma StepKeepsDoomed(cfg: Cfg, sh: Shared, f: Findings, p: Proc, a: Ambient)
    requires f.intact && Doomed(sh.flags, p)
    ensures Doomed(sh.flags, NextCall(cfg, sh, f, p, a))
  {
  }

  lemma ExecKeepsDoomed(cfg: Cfg, s: State, ev: Event, q: nat)
    requires Inv(cfg, s) && q < |s.procs| && Doomed(s.shared.flags, s.procs[q])
    ensures q < |Exec(cfg, s, ev).procs|
    ensures Doomed(Exec(cfg, s, ev).shared.flags, Exec(cfg, s, ev).procs[q])
  {
    ExecGrows(cfg, s, ev);
    if ev.Step? && ev.pid == q {
      StepKeepsDoomed(cfg, s.shared, FindingsOf(cfg, s.shared, s.procs[q]), s.procs[q], ev.a);
    }
  }

  /** Requests on terminated intent `i` with a number from `n` on are refused as terminated. */
  ghost predicate LaterDoomed(s: State, n: nat, i: string) {
    && i in s.shared.flags.terminated
    && forall q :: n <= q < |s.procs| && OfIntent(s.procs[q], i) ==> Doomed(s.shared.flags, s.procs[q])
  }

  /** A call that has just arrived has read nothing. */
  lemma NewCallIsFresh(cfg: Cfg, s: State, ev: Event, q: nat)
    requires |s.procs| <= q < |Exec(cfg, s, ev).procs| && Exec(cfg, s, ev).procs[q].Call?
    ensures Exec(cfg, s, ev).procs[q].pc == VerifyLedger
  {
  }

  lemma ExecKeepsLaterDoomed(cfg: Cfg, s: State, ev: Event, n: nat, i: string)
    requires Inv(cfg, s) && LaterDoomed(s, n, i)
    ensures LaterDoomed(Exec(cfg, s, ev), n, i)
  {
    var s' := Exec(cfg, s, ev);
    ExecGrows(cfg, s, ev);
    forall q | n <= q < |s'.procs| && OfIntent(s'.procs[q], i) ensures Doomed(s'.shared.flags, s'.procs[q]) {
      if q >= |s.procs| {
        NewCallIsFresh(cfg, s, ev, q);
      } else {
        SameRequest(cfg, s, ev, q);
        ExecKeepsDoomed(cfg, s, ev, q);
      }
    }
  }

  /** Termination is for good: every request on the intent that arrives later is refused with the termination
      error and nothing else, before the pipeline or an adapter sees it. */
  lemma {:induction false} TerminationIsForGood(cfg: Cfg, s: State, evs: seq<Event>, i: string)
    requires Reachable(cfg, s) && i in s.shared.flags.terminated
    ensures LaterDoomed(Run(cfg, s, evs), |s.procs|, i)
  {
    if evs != [] {
      ReachableInv(cfg, s);
      RunKeepsInv(cfg, s, evs[..|evs| - 1]);
      TerminationIsForGood(cfg, s, evs[..|evs| - 1], i);
      ExecKeepsLaterDoomed(cfg, Run(cfg, s, evs[..|evs| - 1]), evs[|evs| - 1], |s.procs|, i);
    }
  }

  // ---- Broken ledgers ------------------------------------------------------------------------------------

  const INTEGRITY_VERDICT := Verdict(Deny, LedgerBroken, LedgerIntegrity, ErrLedgerBreak, [])

  lemma ExecNeverRepairs(cfg: Cfg, s: State, ev: Event)
    ensures BadLinks(s.shared.ledger.entries) <= BadLinks(Exec(cfg, s, ev).shared.ledger.entries)
    ensures |BadLinks(s.shared.ledger.entries)| <= |BadLinks(Exec(cfg, s, ev).shared.ledger.entries)|
    ensures HeadOk(Exec(cfg, s, ev).shared.ledger.entries) ==> HeadOk(s.shared.ledger.entries)
    ensures Linked(Exec(cfg, s, ev).shared.ledger.entries) ==> Linked(s.shared.ledger.entries)
  {
    if ev.Step? && ev.pid < |s.procs| && EffectOf(s.procs[ev.pid], ev.a).Write? {
      AppendNeverRepairs(cfg.hash, s.shared.ledger, EffectOf(s.procs[ev.pid], ev.a).draft, ev.a.now);
    }
  }

  lemma StepKeepsHeaded(cfg: Cfg, sh: Shared, f: Findings, p: Proc, a: Ambient)
    requires !f.intact && HeadedFor(p, INTEGRITY_VERDICT)
    ensures HeadedFor(NextCall(cfg, sh, f, p, a), INTEGRITY_VERDICT)
  {
  }

  /** Requests that arrive from number `n` on, or are in `waiting`, are refused for the ledger's integrity. */
  ghost predicate FailingClosed(s: State, n: nat, waiting: set<int>) {
    && n <= |s.procs|
    && !Linked(s.shared.ledger.entries)
    && forall q :: 0 <= q < |s.procs| && s.procs[q].Call? && (q >= n || q in waiting) ==>
         HeadedFor(s.procs[q], INTEGRITY_VERDICT)
  }

  lemma ExecKeepsFailingClosed(cfg: Cfg, s: State, ev: Event, n: nat, waiting: set<int>)
    requires FailingClosed(s, n, waiting)
    ensures FailingClosed(Exec(cfg, s, ev), n, waiting)
  {
    ExecNeverRepairs(cfg, s, ev);
    if ev.Step? && ev.pid < |s.procs| && s.procs[ev.pid].Call? && HeadedFor(s.procs[ev.pid], INTEGRITY_VERDICT) {
      StepKeepsHeaded(cfg, s.shared, FindingsOf(cfg, s.shared, s.procs[ev.pid]), s.procs[ev.pid], ev.a);
    }
  }

  /** Requests that have not verified the ledger yet. */
  ghost function Waiting(s: State): set<int> {
    set q | 0 <= q < |s.procs| && s.procs[q].Call? && s.procs[q].pc.VerifyLedger?
  }

  /** Broken ledgers fail closed for good. From any state, forged ones included: bad links never go away, and once
      verification fails every admission that has not started is refused with ledger.integrity, before it reads a
      flag or asks an adapter. */
  lemma {:induction false} BrokenLedgerFailsClosed(cfg: Cfg, s: State, evs: seq<Event>)
    requires !Linked(s.shared.ledger.entries)
    ensures FailingClosed(Run(cfg, s, evs), |s.procs|, Waiting(s))
    ensures BadLinks(s.shared.ledger.entries) <= BadLinks(Run(cfg, s, evs).shared.ledger.entries)
    ensures |BadLinks(s.shared.ledger.entries)| <= |BadLinks(Run(cfg, s, evs).shared.ledger.entries)|
  {
    if evs != [] {
      var mid, ev := Run(cfg, s, evs[..|evs| - 1]), evs[|evs| - 1];
      BrokenLedgerFailsClosed(cfg, s, evs[..|evs| - 1]);
      ExecNeverRepairs(cfg, mid, ev);
      ExecKeepsFailingClosed(cfg, mid, ev, |s.procs|, Waiting(s));
    }
  }
}
