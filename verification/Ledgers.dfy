/** The hash-linked ledger (ledger.go), as values and as the object the router writes to.

    The entry hash is a parameter `h`, a function of the entry with `hash` and `prevHash`
    blanked. Lemmas that need it collision free say so in a `requires`.
  */
module Ledgers {
  import opened Types

  datatype LedgerState = LedgerState(entries: seq<Entry>, lastHash: string, nextIdx: nat)

  const EMPTY_LEDGER := LedgerState([], GENESIS, 0)

  function HashEntry(h: Entry -> string, e: Entry): string {
    h(e.(hash := "", prevHash := ""))
  }

  /** The entry that `Append` stores for the draft `e`. */
  function Stamp(h: Entry -> string, s: LedgerState, e: Entry, now: int): Entry {
    var sealed := e.(index := s.nextIdx, timestamp := now, prevHash := s.lastHash);
    sealed.(hash := HashEntry(h, sealed))
  }

  function Appended(h: Entry -> string, s: LedgerState, e: Entry, now: int): LedgerState {
    var stamped := Stamp(h, s, e, now);
    LedgerState(s.entries + [stamped], stamped.hash, s.nextIdx + 1)
  }

  /** The draft of `WriteDecision`, before the ledger stamps it. */
  function DecisionDraft(req: Request, admitted: bool, result: AdmitResult, reason: Reason, rule: RuleRef,
                         decisionID: string, stageLog: seq<StageRecord>, replayID: string): Entry {
    Entry(0, 0, req.requestID, req.intentID, req.tenantID, req.lane, req.capability, req.modelRef.providerID,
          admitted, result, reason, rule, decisionID, stageLog, "", "", replayID, "")
  }

  /** The draft of `WriteExecution`. */
  function ExecutionDraft(req: Request, decisionID: string, executionHash: string, replayID: string): Entry {
    Entry(0, 0, req.requestID, req.intentID, req.tenantID, req.lane, req.capability, req.modelRef.providerID,
          true, Admit, ExecutedUnderGovernance, ProviderExecution, decisionID, [], "", "", replayID, executionHash)
  }

  /** The entry is about this request. */
  ghost predicate SameSubject(e: Entry, req: Request) {
    && e.requestID == req.requestID && e.intentID == req.intentID && e.tenantID == req.tenantID
    && e.lane == req.lane && e.capability == req.capability && e.provider == req.modelRef.providerID
  }

  /** The record of a governed result, as opposed to that of a decision. */
  ghost predicate IsExecutionOf(e: Entry, decisionID: string, executionHash: string) {
    && e.admitted && e.result == Admit && e.reason == ExecutedUnderGovernance && e.rule == ProviderExecution
    && e.stageLog == [] && e.decisionID == decisionID && e.executionHash == executionHash
  }

  // ---- Links -------------------------------------------------------------------------

  ghost predicate HeadOk(es: seq<Entry>) {
    |es| > 0 ==> es[0].prevHash == GENESIS
  }

  ghost predicate LinkOk(es: seq<Entry>, i: int)
    requires 0 < i < |es|
  {
    es[i].prevHash == es[i - 1].hash
  }

  /** What verification is for: the head is sealed and every entry names its predecessor's hash. */
  ghost predicate Linked(es: seq<Entry>) {
    HeadOk(es) && forall i :: 0 < i < |es| ==> LinkOk(es, i)
  }

  ghost function BadLinks(es: seq<Entry>): set<int> {
    set i | 0 < i < |es| && !LinkOk(es, i)
  }

  /** The bad link between two stretches of entries laid end to end, if there is one. */
  ghost function Joint(a: seq<Entry>, b: seq<Entry>): nat {
    if |a| > 0 && |b| > 0 && b[0].prevHash != a[|a| - 1].hash then 1 else 0
  }

  lemma BadLinksOfAppend(es: seq<Entry>, e: Entry)
    ensures BadLinks(es + [e]) == BadLinks(es) + if Joint(es, [e]) == 1 then {|es|} else {}
  {
    var t := es + [e];
    var expected := BadLinks(es) + if Joint(es, [e]) == 1 then {|es|} else {};
    forall i: int ensures i in BadLinks(t) <==> i in expected {
      if 0 < i < |es| {
        assert t[i] == es[i] && t[i - 1] == es[i - 1];
        assert LinkOk(t, i) == LinkOk(es, i);
      } else if 0 < i == |es| {
        assert t[i] == e && t[i - 1] == es[i - 1];
      }
    }
  }

  lemma BadLinksGrow(es: seq<Entry>, e: Entry)
    ensures |BadLinks(es + [e])| == |BadLinks(es)| + Joint(es, [e])
    ensures BadLinks(es) <= BadLinks(es + [e])
  {
    BadLinksOfAppend(es, e);
    assert |es| !in BadLinks(es);
  }

  lemma NoBadLinks(es: seq<Entry>)
    ensures |BadLinks(es)| == 0 <==> forall i :: 0 < i < |es| ==> LinkOk(es, i)
  {
    if |BadLinks(es)| == 0 {
      forall i | 0 < i < |es| ensures LinkOk(es, i) {
        assert i !in BadLinks(es);
      }
    } else {
      var i :| i in BadLinks(es);
      assert !LinkOk(es, i);
    }
  }

  /** Break counts add over concatenation, up to the joining link. */
  lemma {:induction false} BadLinksConcat(a: seq<Entry>, b: seq<Entry>)
    ensures |BadLinks(a + b)| == |BadLinks(a)| + |BadLinks(b)| + Joint(a, b)
    decreases |b|
  {
    if |b| == 0 {
      assert a + b == a;
      assert BadLinks(b) == {};
    } else {
      var init, last := b[..|b| - 1], b[|b| - 1];
      BadLinksConcat(a, init);
      assert a + b == (a + init) + [last];
      assert b == init + [last];
      BadLinksGrow(a + init, last);
      BadLinksGrow(init, last);
      if |init| > 0 {
        assert Joint(a, init) == Joint(a, b);
        assert (a + init)[|a + init| - 1] == init[|init| - 1];
      } else {
        assert a + init == a;
      }
    }
  }

  /** The verdict and the break count of both verifiers, for every sequence of entries. */
  ghost predicate IsVerification(es: seq<Entry>, ok: bool, breaks: int) {
    && (ok <==> Linked(es))
    && breaks == if HeadOk(es) then |BadLinks(es)| else 0
  }

  /** Independent verification of an export. */
  method VerifyExport(es: seq<Entry>) returns (ok: bool, breaks: nat)
    ensures IsVerification(es, ok, breaks)
  {
    NoBadLinks(es);
    if |es| == 0 {
      assert BadLinks(es) == {};
      return true, 0;
    }
    if es[0].prevHash != GENESIS {
      return false, 0;
    }
    breaks := 0;
    assert BadLinks(es[..1]) == {};
    for i := 1 to |es|
      invariant breaks == |BadLinks(es[..i])|
    {
      assert es[..i + 1] == es[..i] + [es[i]];
      BadLinksGrow(es[..i], es[i]);
      if es[i].prevHash != es[i - 1].hash {
        breaks := breaks + 1;
      }
    }
    assert es[..|es|] == es;
    ok := breaks == 0;
  }

  // ---- Tampering with a sealed chain ---------------------------------------------------

  /** Which one-entry edits the verifier lets through: those that keep both neighbouring links.
      Content is not checked, so an edit that leaves `prevHash` and `hash` alone always passes. */
  lemma EditPasses(es: seq<Entry>, k: nat, e: Entry)
    requires Linked(es) && k < |es|
    ensures Linked(es[k := e]) <==> e.prevHash == es[k].prevHash && (k + 1 < |es| ==> e.hash == es[k].hash)
  {
    var t := es[k := e];
    assert k > 0 ==> LinkOk(es, k);
    assert k + 1 < |es| ==> LinkOk(es, k + 1);
    if Linked(t) {
      assert k > 0 ==> LinkOk(t, k);
      assert k + 1 < |es| ==> LinkOk(t, k + 1);
    }
    if e.prevHash == es[k].prevHash && (k + 1 < |es| ==> e.hash == es[k].hash) {
      forall i | 0 < i < |t| ensures LinkOk(t, i) {
        assert LinkOk(es, i);
      }
    }
  }

  /** Rewriting the hash of an entry that is not last breaks exactly the link after it. */
  lemma TamperedHashIsOneBreak(es: seq<Entry>, k: nat, hash: string)
    requires Linked(es) && k + 1 < |es| && hash != es[k].hash
    ensures HeadOk(es[k := es[k].(hash := hash)])
    ensures BadLinks(es[k := es[k].(hash := hash)]) == {k + 1}
  {
    var t := es[k := es[k].(hash := hash)];
    forall i | 0 < i < |t| ensures LinkOk(t, i) <==> i != k + 1 {
      assert LinkOk(es, i);
    }
  }

  /** Dropping an interior entry leaves exactly one break, when entry hashes are distinct. */
  lemma DroppedEntryIsOneBreak(es: seq<Entry>, k: nat)
    requires Linked(es) && 0 < k && k + 1 < |es|
    requires forall i, j :: 0 <= i < j < |es| ==> es[i].hash != es[j].hash
    ensures HeadOk(es[..k] + es[k + 1..])
    ensures BadLinks(es[..k] + es[k + 1..]) == {k}
  {
    var t := es[..k] + es[k + 1..];
    forall i | 0 < i < |t| ensures LinkOk(t, i) <==> i != k {
      if i < k {
        assert LinkOk(es, i);
      } else {
        assert LinkOk(es, i + 1);
        assert t[i] == es[i + 1];
      }
    }
  }

  // ---- Well-formed ledgers -------------------------------------------------------------

  /** The cached head and index agree with the entries. */
  ghost predicate CacheOk(s: LedgerState) {
    && s.nextIdx == |s.entries|
    && s.lastHash == if s.entries == [] then GENESIS else s.entries[|s.entries| - 1].hash
  }

  ghost predicate Sealed(h: Entry -> string, es: seq<Entry>) {
    && Linked(es)
    && forall i :: 0 <= i < |es| ==> es[i].index == i && es[i].hash == HashEntry(h, es[i])
  }

  ghost predicate WellFormed(h: Entry -> string, s: LedgerState) {
    CacheOk(s) && Sealed(h, s.entries)
  }

  lemma AppendKeepsWellFormed(h: Entry -> string, s: LedgerState, e: Entry, now: int)
    requires WellFormed(h, s)
    ensures WellFormed(h, Appended(h, s, e, now))
  {
    var t := Appended(h, s, e, now).entries;
    var stamped := Stamp(h, s, e, now);
    assert stamped.(hash := "", prevHash := "")
        == stamped.(hash := "").(hash := "", prevHash := "");
    forall i | 0 < i < |t| ensures LinkOk(t, i) {
      if i < |s.entries| {
        assert LinkOk(s.entries, i);
      }
    }
  }

  /** From any state, forged ones included: an append removes no bad link and never mends the head. */
  lemma AppendNeverRepairs(h: Entry -> string, s: LedgerState, e: Entry, now: int)
    ensures BadLinks(s.entries) <= BadLinks(Appended(h, s, e, now).entries)
    ensures |BadLinks(s.entries)| <= |BadLinks(Appended(h, s, e, now).entries)|
    ensures HeadOk(Appended(h, s, e, now).entries) ==> HeadOk(s.entries)
    ensures Linked(Appended(h, s, e, now).entries) ==> Linked(s.entries)
  {
    BadLinksGrow(s.entries, Stamp(h, s, e, now));
    NoBadLinks(s.entries);
    NoBadLinks(Appended(h, s, e, now).entries);
  }

  ghost predicate CollisionFree(h: Entry -> string) {
    && (forall a, b :: h(a) == h(b) ==> a == b)
    && (forall a :: h(a) != GENESIS)
  }

  /** Only prefixes verify: a sequence made of a ledger's own entries, in any order and with any
      omissions and repetitions, passes exactly when it is a prefix of that ledger. */
  lemma OnlyPrefixesVerify(h: Entry -> string, es: seq<Entry>, t: seq<Entry>)
    requires CollisionFree(h) && Sealed(h, es)
    requires forall i :: 0 <= i < |t| ==> t[i] in es
    ensures Linked(t) <==> t <= es
  {
    if Linked(t) {
      forall n | 0 <= n < |t| ensures n < |es| && t[n] == es[n] {
        LinkedByIndex(h, es, t, n);
      }
      if |t| > 0 {
        LinkedByIndex(h, es, t, |t| - 1);
      }
    }
    if t <= es {
      assert HeadOk(es);
      forall i | 0 < i < |t| ensures LinkOk(t, i) {
        assert LinkOk(es, i);
      }
    }
  }

  /** In a sealed ledger the entry that names the hash of entry `n - 1` is entry `n`. */
  lemma SuccessorIsNext(h: Entry -> string, es: seq<Entry>, k: nat, n: nat)
    requires CollisionFree(h) && Sealed(h, es)
    requires k < |es| && 0 < n <= |es| && es[k].prevHash == es[n - 1].hash
    ensures k == n
  {
    assert es[n - 1].hash == HashEntry(h, es[n - 1]) != GENESIS;
    assert k > 0;
    assert LinkOk(es, k);
    assert HashEntry(h, es[k - 1]) == HashEntry(h, es[n - 1]);
    assert es[k - 1].index == es[n - 1].index;
  }

  lemma {:induction false} LinkedByIndex(h: Entry -> string, es: seq<Entry>, t: seq<Entry>, n: nat)
    requires CollisionFree(h) && Sealed(h, es) && Linked(t)
    requires forall i :: 0 <= i < |t| ==> t[i] in es
    requires n < |t|
    ensures n < |es| && t[n] == es[n]
  {
    var k :| 0 <= k < |es| && es[k] == t[n];
    if n == 0 {
      HeadIsFirst(h, es, k);
    } else {
      LinkedByIndex(h, es, t, n - 1);
      assert LinkOk(t, n);
      SuccessorIsNext(h, es, k, n);
    }
  }

  lemma HeadIsFirst(h: Entry -> string, es: seq<Entry>, k: nat)
    requires CollisionFree(h) && Sealed(h, es) && k < |es| && es[k].prevHash == GENESIS
    ensures k == 0
  {
    forall i | 0 < i < |es| ensures es[i].prevHash != GENESIS {
      assert LinkOk(es, i) && es[i - 1].hash == HashEntry(h, es[i - 1]);
    }
  }

  /** The hash covers everything but the two link fields: entries have one hash exactly when they differ at most there.
      So moving an entry to another predecessor keeps its hash, and changing its position or its content does not. */
  lemma HashCoversContent(h: Entry -> string, a: Entry, b: Entry)
    requires CollisionFree(h)
    ensures HashEntry(h, a) == HashEntry(h, b) <==> a == b.(hash := a.hash, prevHash := a.prevHash)
  {
    assert a.(hash := "", prevHash := "") == b.(hash := "", prevHash := "") ==>
           a == b.(hash := a.hash, prevHash := a.prevHash);
  }

  // ---- Causal evidence records ----------------------------------------------------------

  datatype Cer = Cer(
    version: string, decisionID: string, requestID: string, intentID: string, tenantID: string,
    runtimeIdentity: string, inputHash: string, evidence: seq<string>, checks: seq<StageRecord>,
    replayMarker: string, lineage: seq<Entry>, timestamp: int)

  /** The record is about entry `e` of the ledger `es`; its input hash covers all of the entry, links included. */
  ghost predicate IsEvidenceOf(c: Cer, h: Entry -> string, es: seq<Entry>, e: Entry, now: int) {
    && c.version == "1.0" && c.runtimeIdentity == "voss-standalone" && c.timestamp == now
    && c.decisionID == e.decisionID && c.requestID == e.requestID && c.intentID == e.intentID
    && c.tenantID == e.tenantID && c.inputHash == h(e) && c.evidence == [e.hash] && c.checks == e.stageLog
    && c.replayMarker == e.replayID && c.lineage == es
  }

  ghost predicate FirstWithDecision(es: seq<Entry>, k: nat, decisionID: string) {
    && k < |es| && es[k].decisionID == decisionID
    && forall j :: 0 <= j < k ==> es[j].decisionID != decisionID
  }

  /** The ledger object. Clock readings and replay markers are parameters. */
  class Ledger {
    const hash: Entry -> string
    var entries: seq<Entry>
    var lastHash: string
    var nextIdx: nat

    ghost function State(): LedgerState
      reads this
    {
      LedgerState(entries, lastHash, nextIdx)
    }

    constructor (hash: Entry -> string)
      ensures this.hash == hash && State() == EMPTY_LEDGER
      ensures WellFormed(hash, State())
    {
      this.hash := hash;
      entries, lastHash, nextIdx := [], GENESIS, 0;
    }

    method Append(entry: Entry, now: int) returns (e: Entry)
      modifies this
      ensures State() == Appended(hash, old(State()), entry, now)
      ensures entries == old(entries) + [e]
      // The caller's entry is stored as it is, but for position, time and seal.
      ensures e == entry.(index := old(nextIdx), timestamp := now, prevHash := old(lastHash), hash := e.hash)
      ensures e.hash == lastHash == HashEntry(hash, e) && nextIdx == old(nextIdx) + 1
      ensures e == Stamp(hash, old(State()), entry, now)
      ensures old(WellFormed(hash, State())) ==> WellFormed(hash, State()) && e.index == old(|entries|)
    {
      ghost var before := State();
      e := entry.(index := nextIdx, timestamp := now, prevHash := lastHash);
      e := e.(hash := hash(e.(hash := "", prevHash := "")));
      entries := entries + [e];
      lastHash := e.hash;
      nextIdx := nextIdx + 1;
      if WellFormed(hash, before) {
        AppendKeepsWellFormed(hash, before, entry, now);
      }
    }

    method WriteDecision(req: Request, admitted: bool, result: AdmitResult, reason: Reason, rule: RuleRef,
                         decisionID: string, stageLog: seq<StageRecord>, now: int, replayID: string)
      returns (e: Entry)
      modifies this
      ensures State() == Appended(hash, old(State()),
                DecisionDraft(req, admitted, result, reason, rule, decisionID, stageLog, replayID), now)
      ensures e == Stamp(hash, old(State()),
                DecisionDraft(req, admitted, result, reason, rule, decisionID, stageLog, replayID), now)
      ensures entries == old(entries) + [e]
      ensures SameSubject(e, req) && e.admitted == admitted && e.result == result
      ensures e.reason == reason && e.rule == rule && e.stageLog == stageLog && e.executionHash == ""
      ensures e.decisionID == decisionID && e.replayID == replayID && e.timestamp == now
      ensures old(WellFormed(hash, State())) ==> WellFormed(hash, State())
    {
      e := Append(Entry(0, 0, req.requestID, req.intentID, req.tenantID, req.lane, req.capability,
                        req.modelRef.providerID, admitted, result, reason, rule, decisionID, stageLog,
                        "", "", replayID, ""), now);
    }

    method WriteExecution(req: Request, decisionID: string, executionHash: string, now: int, replayID: string)
      returns (e: Entry)
      modifies this
      ensures State() == Appended(hash, old(State()), ExecutionDraft(req, decisionID, executionHash, replayID), now)
      ensures entries == old(entries) + [e]
      ensures SameSubject(e, req) && IsExecutionOf(e, decisionID, executionHash)
      ensures e.replayID == replayID && e.timestamp == now
    {
      e := Append(Entry(0, 0, req.requestID, req.intentID, req.tenantID, req.lane, req.capability,
                        req.modelRef.providerID, true, Admit, ExecutedUnderGovernance, ProviderExecution,
                        decisionID, [], "", "", replayID, executionHash), now);
    }

    method Verify() returns (ok: bool, breaks: nat)
      ensures IsVerification(entries, ok, breaks)
    {
      NoBadLinks(entries);
      if |entries| == 0 {
        assert BadLinks(entries) == {};
        return true, 0;
      }
      if entries[0].prevHash != GENESIS {
        return false, 0;
      }
      breaks := 0;
      var i := 1;
      assert BadLinks(entries[..1]) == {};
      while i < |entries|
        invariant 1 <= i <= |entries|
        invariant breaks == |BadLinks(entries[..i])|
      {
        assert entries[..i + 1] == entries[..i] + [entries[i]];
        BadLinksGrow(entries[..i], entries[i]);
        if entries[i].prevHash != entries[i - 1].hash {
          breaks := breaks + 1;
        }
        i := i + 1;
      }
      assert entries[..i] == entries;
      ok := breaks == 0;
    }

    method Export() returns (out: seq<Entry>)
      ensures out == entries
    {
      out := entries;
    }

    method GenerateCER(decisionID: string, now: int) returns (cer: Option<Cer>)
      ensures cer.None? <==> forall j :: 0 <= j < |entries| ==> entries[j].decisionID != decisionID
      ensures cer.Some? ==> exists k: nat ::
                FirstWithDecision(entries, k, decisionID) && IsEvidenceOf(cer.value, hash, entries, entries[k], now)
    {
      for k := 0 to |entries|
        invariant forall j :: 0 <= j < k ==> entries[j].decisionID != decisionID
      {
        var e := entries[k];
        if e.decisionID == decisionID {
          assert FirstWithDecision(entries, k, decisionID);
          return Some(Cer("1.0", e.decisionID, e.requestID, e.intentID, e.tenantID, "voss-standalone", hash(e),
                          [e.hash], e.stageLog, e.replayID, entries, now));
        }
      }
      return None;
    }
  }
}
