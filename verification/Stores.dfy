/** The two stores that operators write to: execution states (execution.go) and
    operator flags (corrigibility.go). Each method is one critical section of the source. */
module Stores {
  import opened Types

  datatype ExecState = Pending | AdmittedState | Running | Halted | Terminated {
    predicate IsTerminal() {
      Halted? || Terminated?
    }
  }

  /** The legal transitions; HALTED and TERMINATED have none. */
  predicate Legal(from: ExecState, to: ExecState) {
    match from
    case Pending => to.AdmittedState?
    case AdmittedState => to.Running? || to.Halted? || to.Terminated?
    case Running => to.Halted? || to.Terminated?
    case Halted => false
    case Terminated => false
  }

  /** A run of successful transitions of one intent, from PENDING on. */
  ghost predicate IsHistory(sts: seq<ExecState>) {
    && |sts| > 0 && sts[0] == Pending
    && forall k :: 0 < k < |sts| ==> Legal(sts[k - 1], sts[k])
  }

  /** The histories the documentation draws: a non-empty part of PENDING, ADMITTED, RUNNING in this order, with HALTED
      or TERMINATED as a last state after ADMITTED or RUNNING. */
  ghost predicate IsDrawn(sts: seq<ExecState>) {
    var line := [Pending, AdmittedState, Running];
    var n := |sts|;
    || (0 < n && sts <= line)
    || (2 < n && sts[..n - 1] <= line && sts[n - 1].IsTerminal())
  }

  /** The state machine makes exactly the histories the documentation draws. */
  lemma HistoryShape(sts: seq<ExecState>)
    ensures IsHistory(sts) <==> IsDrawn(sts)
  {
    if IsHistory(sts) {
      assert |sts| > 1 ==> Legal(sts[0], sts[1]);
      assert |sts| > 2 ==> Legal(sts[1], sts[2]);
      assert |sts| > 3 ==> Legal(sts[2], sts[3]);
      assert |sts| > 4 ==> Legal(sts[3], sts[4]);
    }
    if IsDrawn(sts) {
      forall k | 0 < k < |sts| ensures Legal(sts[k - 1], sts[k]) {
        assert sts[k - 1] == [Pending, AdmittedState, Running][k - 1];
      }
    }
  }

  type ExecMap = map<string, ExecState>

  function Current(m: ExecMap, intentID: string): ExecState {
    if intentID in m then m[intentID] else Pending
  }

  function Transitioned(m: ExecMap, intentID: string, expected: ExecState, next: ExecState): ExecMap {
    if Current(m, intentID) == expected && Legal(expected, next) then m[intentID := next] else m
  }

  class ExecutionState {
    var states: ExecMap

    constructor ()
      ensures states == map[]
    {
      states := map[];
    }

    method CurrentState(intentID: string) returns (st: ExecState)
      ensures st == Current(states, intentID)
    {
      if intentID !in states {
        return Pending;
      }
      return states[intentID];
    }

    method Transition(intentID: string, expected: ExecState, next: ExecState) returns (ok: bool)
      modifies this
      ensures states == Transitioned(old(states), intentID, expected, next)
      ensures ok <==> old(Current(states, intentID)) == expected && Legal(expected, next)
      ensures old(Current(states, intentID)).IsTerminal() ==> !ok
      ensures !ok ==> states == old(states)
      ensures forall j :: j != intentID ==> Current(states, j) == old(Current(states, j))
      ensures ok ==> Current(states, intentID) == next
    {
      var cur := Pending;
      if intentID in states {
        cur := states[intentID];
      }
      if cur != expected {
        return false;
      }
      if !Legal(cur, next) {
        return false;
      }
      states := states[intentID := next];
      return true;
    }

    method Forcibly(intentID: string, next: ExecState)
      modifies this
      ensures states == old(states)[intentID := next]
    {
      states := states[intentID := next];
    }
  }

  /** The operator flags of all intents. */
  datatype Flags = Flags(interrupted: set<string>, corrected: map<string, string>, terminated: set<string>)

  const NO_FLAGS := Flags({}, map[], {})

  function CorrectionOf(f: Flags, intentID: string): Option<string> {
    if intentID in f.corrected then Some(f.corrected[intentID]) else None
  }

  datatype OperatorAction = Interrupt | Correct(directive: string) | Terminate

  function WithAction(f: Flags, action: OperatorAction, intentID: string): Flags {
    match action
    case Interrupt => f.(interrupted := f.interrupted + {intentID})
    case Correct(d) => f.(corrected := f.corrected[intentID := d])
    case Terminate => f.(terminated := f.terminated + {intentID})
  }

  /** Between `f` and `g` the order was set on its intent, and as far as `i` can tell nothing else changed. */
  ghost predicate SetsOnly(f: Flags, g: Flags, action: OperatorAction, intentID: string, i: string) {
    && (i in g.interrupted <==> i in f.interrupted || (i == intentID && action.Interrupt?))
    && (i in g.terminated <==> i in f.terminated || (i == intentID && action.Terminate?))
    && (i in g.corrected <==> i in f.corrected || (i == intentID && action.Correct?))
    && (i in g.corrected ==>
          g.corrected[i] == if i == intentID && action.Correct? then action.directive else f.corrected[i])
  }

  lemma ActionSetsOnly(f: Flags, action: OperatorAction, intentID: string, i: string)
    ensures SetsOnly(f, WithAction(f, action, intentID), action, intentID, i)
  {
  }

  /** `g` holds every order of `f`; the text of a correction may have been replaced. */
  ghost predicate FlagsWithin(f: Flags, g: Flags) {
    && f.interrupted <= g.interrupted
    && f.terminated <= g.terminated
    && f.corrected.Keys <= g.corrected.Keys
  }

  class InterruptStore {
    var interrupt: set<string>
    var corrected: map<string, string>
    var terminate: set<string>

    ghost function State(): Flags
      reads this
    {
      Flags(interrupt, corrected, terminate)
    }

    constructor ()
      ensures State() == NO_FLAGS
    {
      interrupt, corrected, terminate := {}, map[], {};
    }

    // Each order sets its own kind of flag, for its own intent, and nothing else.
    method SetInterrupt(intentID: string)
      modifies this
      ensures State() == WithAction(old(State()), Interrupt, intentID)
      ensures forall j :: j in interrupt <==> j == intentID || j in old(interrupt)
      ensures corrected == old(corrected) && terminate == old(terminate)
    {
      interrupt := interrupt + {intentID};
    }

    method SetCorrection(intentID: string, directive: string)
      modifies this
      ensures State() == WithAction(old(State()), Correct(directive), intentID)
      ensures forall j :: j in corrected <==> j == intentID || j in old(corrected)
      ensures forall j :: j in corrected ==> corrected[j] == if j == intentID then directive else old(corrected)[j]
      ensures interrupt == old(interrupt) && terminate == old(terminate)
    {
      corrected := corrected[intentID := directive];
    }

    method SetTermination(intentID: string)
      modifies this
      ensures State() == WithAction(old(State()), Terminate, intentID)
      ensures forall j :: j in terminate <==> j == intentID || j in old(terminate)
      ensures interrupt == old(interrupt) && corrected == old(corrected)
    {
      terminate := terminate + {intentID};
    }

    method IsInterrupted(intentID: string) returns (b: bool)
      ensures b <==> intentID in interrupt
    {
      return intentID in interrupt;
    }

    /** The directive, or "" when there is none, and whether there is one. */
    method Correction(intentID: string) returns (directive: string, ok: bool)
      ensures ok <==> intentID in corrected
      ensures directive == if ok then corrected[intentID] else ""
    {
      if intentID in corrected {
        return corrected[intentID], true;
      }
      return "", false;
    }

    method IsTerminated(intentID: string) returns (b: bool)
      ensures b <==> intentID in terminate
    {
      return intentID in terminate;
    }
  }
}
