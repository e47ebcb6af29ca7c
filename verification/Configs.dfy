/** The configuration compiler (config.go): tenants with dotted capability strings become tenant policies and one
    lattice shared by all of them. */
module Configs {
  import opened Types
  import opened Usl
  import opened Stores
  import opened Gre
  import opened Admission

  datatype LegacyTenant = LegacyTenant(
    tenantID: string, name: string, lane: string, classes: seq<string>, requiresApproval: bool,
    operatorIDs: seq<string>)

  // ---- Splitting on dots ---------------------------------------------------------------------------

  /** `strings.Split(s, ".")`. */
  function Split(s: string): (parts: seq<string>)
    ensures |parts| >= 1
  {
    if s == "" then [""]
    else
      var rest := Split(s[1..]);
      if s[0] == '.' then [""] + rest else [[s[0]] + rest[0]] + rest[1..]
  }

  function Join(parts: seq<string>): string
    requires |parts| >= 1
  {
    if |parts| == 1 then parts[0] else parts[0] + "." + Join(parts[1..])
  }

  ghost predicate DotFree(parts: seq<string>) {
    forall k :: 0 <= k < |parts| ==> '.' !in parts[k]
  }

  /** The parts hold no dot and joined give the string back. */
  lemma {:induction false} JoinOfSplit(s: string)
    ensures Join(Split(s)) == s && DotFree(Split(s))
  {
    if s != "" {
      JoinOfSplit(s[1..]);
      var rest := Split(s[1..]);
      if s[0] == '.' {
        assert Split(s)[1..] == rest;
      } else {
        assert Split(s)[1..] == rest[1..];
        assert s == [s[0]] + s[1..];
      }
    }
  }

  /** And that determines them. */
  lemma {:induction false} SplitOfJoin(parts: seq<string>)
    requires |parts| >= 1 && DotFree(parts)
    ensures Split(Join(parts)) == parts
    decreases |parts|, |parts[0]|
  {
    var s := Join(parts);
    if parts[0] == "" {
      if |parts| > 1 {
        SplitOfJoin(parts[1..]);
        assert s[0] == '.' && s[1..] == Join(parts[1..]);
        assert parts == [""] + parts[1..];
      } else {
        assert parts == [""];
      }
    } else {
      var shorter := [parts[0][1..]] + parts[1..];
      assert shorter[1..] == parts[1..];
      SplitOfJoin(shorter);
      assert s[0] == parts[0][0] && s[1..] == Join(shorter);
      assert s[0] != '.';
      assert [s[0]] + shorter[0] == parts[0];
      assert parts == [parts[0]] + shorter[1..];
    }
  }

  /** A two-part string is its parts around one dot. */
  lemma TwoParts(s: string, cls: string, scope: string)
    ensures Split(s) == [cls, scope] ==> s == cls + "." + scope
    ensures s == cls + "." + scope && |Split(s)| == 2 ==> Split(s) == [cls, scope]
  {
    JoinOfSplit(s);
    if Split(s) == [cls, scope] {
      assert [cls, scope][1..] == [scope];
    }
    if s == cls + "." + scope && |Split(s)| == 2 {
      var p := Split(s);
      assert p[1..] == [p[1]] && s == p[0] + "." + p[1];
      SplitPoint(p[0], p[1], cls, scope);
    }
  }

  lemma SplitPoint(a: string, b: string, c: string, d: string)
    requires a + "." + b == c + "." + d && '.' !in a && '.' !in b
    ensures a == c && b == d
  {
    var s := a + "." + b;
    assert s[|c|] == '.';
    assert forall i :: 0 <= i < |a| ==> s[i] == a[i] != '.';
    assert forall i :: |a| < i < |s| ==> s[i] == b[i - |a| - 1] != '.';
    assert |a| == |c|;
    assert a == s[..|a|] == c;
    assert b == s[|a| + 1..] == d;
  }

  // ---- What one tenant compiles to --------------------------------------------------------------------

  const DEFAULT_ACTIONS: seq<string> := ["propose", "execute", "preview", "verify", "apply"]

  ghost predicate ListsScope(classes: seq<string>, scope: string) {
    exists k :: 0 <= k < |classes| && |Split(classes[k])| >= 2 && Split(classes[k])[1] == scope
  }

  ghost predicate ListsAction(classes: seq<string>, action: string) {
    exists k :: 0 <= k < |classes| && |Split(classes[k])| >= 3 && Split(classes[k])[2] == action
  }

  ghost predicate NoRepeats(list: seq<string>) {
    forall i, j :: 0 <= i < j < |list| ==> list[i] != list[j]
  }

  /** The policy of a tenant: first parts as classes, second parts as scopes, third parts as actions with a default. */
  ghost predicate IsPolicyOf(t: LegacyTenant, p: TenantPolicy) {
    && p.tenantID == t.tenantID && p.name == t.name && p.lane == t.lane
    && |p.classes| == |t.classes| && (forall k :: 0 <= k < |t.classes| ==> p.classes[k] == Split(t.classes[k])[0])
    && (forall x :: x in p.scopes <==> ListsScope(t.classes, x)) && NoRepeats(p.scopes)
    && (if exists x :: ListsAction(t.classes, x)
        then (forall x :: x in p.actions <==> ListsAction(t.classes, x))
        else p.actions == DEFAULT_ACTIONS)
    && p.risks == [] && p.requiresApproval == t.requiresApproval
    && p.identityNamespace == t.tenantID + "-ns"
    && p.sovereign == if |t.operatorIDs| > 0 then t.operatorIDs[0] else ""
  }

  function GrantOf(listed: string, lane: string): Grant {
    var parts := Split(listed);
    Grant(Capability(parts[0], if |parts| >= 2 then parts[1] else "default", "execute", "low"), [lane])
  }

  /** What a listed item grants, read off the item: "class" alone, "class.scope", or "class.scope." and anything. */
  lemma {:induction false} GrantMeans(item: string, lane: string, cls: string, scope: string)
    ensures GrantOf(item, lane) == Grant(Capability(cls, scope, "execute", "low"), [lane]) <==>
            && '.' !in cls
            && (|| (item == cls && scope == "default")
                || ('.' !in scope && (item == cls + "." + scope || cls + "." + scope + "." <= item)))
  {
    var parts := Split(item);
    JoinOfSplit(item);
    if GrantOf(item, lane) == Grant(Capability(cls, scope, "execute", "low"), [lane]) {
      HeadOfJoin(parts);
    }
    if '.' !in cls && item == cls {
      SplitOfJoin([cls]);
    }
    if '.' !in cls && '.' !in scope {
      if item == cls + "." + scope {
        SplitOfJoin([cls, scope]);
        assert [cls, scope][1..] == [scope];
      } else if cls + "." + scope + "." <= item {
        LongItem(item, cls, scope);
      }
    }
  }

  lemma {:induction false} HeadOfJoin(parts: seq<string>)
    requires |parts| >= 1
    ensures |parts| == 1 ==> Join(parts) == parts[0]
    ensures |parts| == 2 ==> Join(parts) == parts[0] + "." + parts[1]
    ensures |parts| >= 3 ==> parts[0] + "." + parts[1] + "." <= Join(parts)
  {
    if |parts| >= 2 {
      var tail := parts[1..];
      assert Join(parts) == parts[0] + "." + Join(tail);
      if |parts| >= 3 {
        var more := Join(tail[1..]);
        assert Join(tail) == parts[1] + "." + more;
        assert Join(parts) == (parts[0] + "." + parts[1] + ".") + more;
      }
    }
  }

  /** An item with more than two parts splits into the first two and the others. */
  lemma {:induction false} LongItem(item: string, cls: string, scope: string)
    requires '.' !in cls && '.' !in scope && cls + "." + scope + "." <= item
    ensures |Split(item)| >= 3 && Split(item)[0] == cls && Split(item)[1] == scope
  {
    var rest := item[|cls + "." + scope + "."|..];
    JoinOfSplit(rest);
    var parts := [cls, scope] + Split(rest);
    assert parts[1..] == [scope] + Split(rest) && parts[1..][1..] == Split(rest);
    assert Join(parts[1..]) == scope + "." + rest;
    assert Join(parts) == cls + "." + (scope + "." + rest) == cls + "." + scope + "." + rest == item;
    SplitOfJoin(parts);
  }

  function LatticeOf(ts: seq<LegacyTenant>): seq<Grant> {
    if ts == [] then []
    else
      var t := ts[|ts| - 1];
      LatticeOf(ts[..|ts| - 1]) + seq(|t.classes|, k requires 0 <= k < |t.classes| => GrantOf(t.classes[k], t.lane))
  }

  ghost predicate IsBuild(ts: seq<LegacyTenant>, policies: seq<TenantPolicy>, lattice: seq<Grant>) {
    && |policies| == |ts| && (forall k :: 0 <= k < |ts| ==> IsPolicyOf(ts[k], policies[k]))
    && lattice == LatticeOf(ts)
  }

  lemma LatticeSnoc(ts: seq<LegacyTenant>, n: nat)
    requires n < |ts|
    ensures LatticeOf(ts[..n + 1]) == LatticeOf(ts[..n])
              + seq(|ts[n].classes|, k requires 0 <= k < |ts[n].classes| => GrantOf(ts[n].classes[k], ts[n].lane))
  {
    assert ts[..n + 1][..n] == ts[..n];
  }

  /** The first inner loop of `Build`. */
  method CompileClasses(classes: seq<string>)
    returns (allowed: seq<string>, scopes: seq<string>, actions: seq<string>)
    ensures |allowed| == |classes| && forall k :: 0 <= k < |classes| ==> allowed[k] == Split(classes[k])[0]
    ensures forall x :: x in scopes <==> ListsScope(classes, x)
    ensures NoRepeats(scopes)
    ensures forall x :: x in actions <==> ListsAction(classes, x)
  {
    allowed, scopes, actions := [], [], [];
    var n := 0;
    while n < |classes|
      invariant 0 <= n <= |classes|
      invariant |allowed| == n && forall k :: 0 <= k < n ==> allowed[k] == Split(classes[k])[0]
      invariant forall x :: x in scopes <==> ListsScope(classes[..n], x)
      invariant NoRepeats(scopes)
      invariant forall x :: x in actions <==> ListsAction(classes[..n], x)
    {
      var parts := Split(classes[n]);
      ListsSnoc(classes[..n], classes[n]);
      assert classes[..n + 1] == classes[..n] + [classes[n]];
      if |parts| >= 2 {
        allowed := allowed + [parts[0]];
        if !Contains(scopes, parts[1]) {
          scopes := scopes + [parts[1]];
        }
        if |parts| >= 3 && !Contains(actions, parts[2]) {
          actions := actions + [parts[2]];
        }
      } else {
        JoinOfSplit(classes[n]);
        allowed := allowed + [classes[n]];
      }
      n := n + 1;
    }
    assert classes[..n] == classes;
  }

  lemma ListsSnoc(classes: seq<string>, c: string)
    ensures forall x :: ListsScope(classes + [c], x) <==>
              ListsScope(classes, x) || (|Split(c)| >= 2 && Split(c)[1] == x)
    ensures forall x :: ListsAction(classes + [c], x) <==>
              ListsAction(classes, x) || (|Split(c)| >= 3 && Split(c)[2] == x)
  {
    var t := classes + [c];
    assert t[|classes|] == c;
    forall x ensures ListsScope(t, x) <==> ListsScope(classes, x) || (|Split(c)| >= 2 && Split(c)[1] == x) {
      if ListsScope(classes, x) {
        var k :| 0 <= k < |classes| && |Split(classes[k])| >= 2 && Split(classes[k])[1] == x;
        assert t[k] == classes[k];
      }
    }
    forall x ensures ListsAction(t, x) <==> ListsAction(classes, x) || (|Split(c)| >= 3 && Split(c)[2] == x) {
      if ListsAction(classes, x) {
        var k :| 0 <= k < |classes| && |Split(classes[k])| >= 3 && Split(classes[k])[2] == x;
        assert t[k] == classes[k];
      }
    }
  }

  method CompileTenant(t: LegacyTenant) returns (p: TenantPolicy)
    ensures IsPolicyOf(t, p)
  {
    var allowed, scopes, actions := CompileClasses(t.classes);
    if |actions| == 0 {
      actions := ["propose", "execute", "preview", "verify", "apply"];
    } else {
      assert actions[0] in actions;
    }
    var op := "";
    if |t.operatorIDs| > 0 {
      op := t.operatorIDs[0];
    }
    p := TenantPolicy(t.tenantID, t.name, t.lane, allowed, scopes, actions, [], t.requiresApproval,
                      t.tenantID + "-ns", op);
  }

  /** The second inner loop of `Build`. */
  method AppendGrants(lattice: seq<Grant>, t: LegacyTenant) returns (out: seq<Grant>)
    ensures out == lattice + seq(|t.classes|, k requires 0 <= k < |t.classes| => GrantOf(t.classes[k], t.lane))
  {
    out := lattice;
    for m := 0 to |t.classes|
      invariant out == lattice + seq(m, k requires 0 <= k < m => GrantOf(t.classes[k], t.lane))
    {
      var parts := Split(t.classes[m]);
      var scope := "default";
      if |parts| >= 2 {
        scope := parts[1];
      }
      out := out + [Grant(Capability(parts[0], scope, "execute", "low"), [t.lane])];
    }
  }

  /** `Config.Build`. */
  method Build(ts: seq<LegacyTenant>) returns (policies: seq<TenantPolicy>, lattice: seq<Grant>)
    ensures IsBuild(ts, policies, lattice)
  {
    policies, lattice := [], [];
    for n := 0 to |ts|
      invariant |policies| == n && forall k :: 0 <= k < n ==> IsPolicyOf(ts[k], policies[k])
      invariant lattice == LatticeOf(ts[..n])
    {
      var p := CompileTenant(ts[n]);
      policies := policies + [p];
      lattice := AppendGrants(lattice, ts[n]);
      LatticeSnoc(ts, n);
    }
    assert ts[..|ts|] == ts;
  }

  // ---- What the compiled gate admits --------------------------------------------------------------------

  /** Some tenant in this lane lists an item that compiles to this class and scope. */
  ghost predicate LaneLists(ts: seq<LegacyTenant>, lane: string, cls: string, scope: string) {
    exists u, k :: 0 <= u < |ts| && 0 <= k < |ts[u].classes| && ts[u].lane == lane &&
      GrantOf(ts[u].classes[k], lane).capability == Capability(cls, scope, "execute", "low")
  }

  lemma {:induction false} LatticeMembers(ts: seq<LegacyTenant>, g: Grant)
    ensures g in LatticeOf(ts) <==>
            exists u, k :: 0 <= u < |ts| && 0 <= k < |ts[u].classes| && g == GrantOf(ts[u].classes[k], ts[u].lane)
  {
    if ts != [] {
      var n := |ts| - 1;
      var t := ts[n];
      LatticeMembers(ts[..n], g);
      var own := seq(|t.classes|, k requires 0 <= k < |t.classes| => GrantOf(t.classes[k], t.lane));
      if g in own {
        var k :| 0 <= k < |own| && own[k] == g;
        assert g == GrantOf(ts[n].classes[k], ts[n].lane);
      } else if g in LatticeOf(ts[..n]) {
        var u, k :| 0 <= u < n && 0 <= k < |ts[..n][u].classes| && g == GrantOf(ts[..n][u].classes[k], ts[..n][u].lane);
        assert g == GrantOf(ts[u].classes[k], ts[u].lane);
      }
      if u, k :| 0 <= u < |ts| && 0 <= k < |ts[u].classes| && g == GrantOf(ts[u].classes[k], ts[u].lane) {
        if u == n {
          assert own[k] == g;
        } else {
          assert ts[..n][u] == ts[u];
        }
      }
    }
  }

  /** The lattice grants execute at low risk and nothing else, in the lanes of the tenants that list it. */
  lemma BuiltLattice(ts: seq<LegacyTenant>, c: Capability, lane: string)
    ensures CapabilityGranted(LatticeOf(ts), c, lane) <==>
            c.action == "execute" && c.risk == "low" && LaneLists(ts, lane, c.cls, c.scope)
  {
    if CapabilityGranted(LatticeOf(ts), c, lane) {
      var g :| g in LatticeOf(ts) && g.capability == c && lane in g.lanes;
      LatticeMembers(ts, g);
      var u, k :| 0 <= u < |ts| && 0 <= k < |ts[u].classes| && g == GrantOf(ts[u].classes[k], ts[u].lane);
      assert ts[u].lane == lane;
      assert c == Capability(c.cls, c.scope, "execute", "low");
      assert LaneLists(ts, lane, c.cls, c.scope);
    }
    if c.action == "execute" && c.risk == "low" && LaneLists(ts, lane, c.cls, c.scope) {
      var u, k :| 0 <= u < |ts| && 0 <= k < |ts[u].classes| && ts[u].lane == lane &&
        GrantOf(ts[u].classes[k], lane).capability == Capability(c.cls, c.scope, "execute", "low");
      var g := GrantOf(ts[u].classes[k], lane);
      LatticeMembers(ts, g);
      assert g in LatticeOf(ts) && g.capability == c && lane in g.lanes;
    }
  }

  ghost predicate ListsClass(classes: seq<string>, cls: string) {
    exists k :: 0 <= k < |classes| && Split(classes[k])[0] == cls
  }

  /** The tenant lists the class, the scope unless it lists no scope at all, and the action "execute" unless it lists no
      action at all; each may stand in an item of its own. */
  ghost predicate ListsApart(classes: seq<string>, cls: string, scope: string) {
    && ListsClass(classes, cls)
    && (ListsScope(classes, scope) || forall x :: !ListsScope(classes, x))
    && (ListsAction(classes, "execute") || forall x :: !ListsAction(classes, x))
  }

  /** What the compiled policy of a tenant allows for execute at low risk, whatever its items look like. */
  lemma BuiltPolicy(t: LegacyTenant, p: TenantPolicy, c: Capability)
    requires IsPolicyOf(t, p) && c.action == "execute"
    ensures Allows(p, c) <==> ListsApart(t.classes, c.cls, c.scope)
  {
    assert c.cls in p.classes <==> ListsClass(t.classes, c.cls);
    assert p.scopes == [] <==> forall x :: !ListsScope(t.classes, x) by {
      assert p.scopes != [] ==> p.scopes[0] in p.scopes;
    }
    PolicyActions(t, p);
  }

  lemma PolicyActions(t: LegacyTenant, p: TenantPolicy)
    requires IsPolicyOf(t, p)
    ensures p.actions == [] || "execute" in p.actions <==>
            ListsAction(t.classes, "execute") || forall x :: !ListsAction(t.classes, x)
  {
    assert DEFAULT_ACTIONS[1] == "execute";
    if x :| ListsAction(t.classes, x) {
      assert x in p.actions;
    }
  }

  /** The first tenant with this id. */
  ghost predicate IsHome(ts: seq<LegacyTenant>, id: string, u: int) {
    0 <= u < |ts| && ts[u].tenantID == id && forall j :: 0 <= j < u ==> ts[j].tenantID != id
  }

  lemma HomeIsFound(ts: seq<LegacyTenant>, policies: seq<TenantPolicy>, lattice: seq<Grant>, id: string)
    requires IsBuild(ts, policies, lattice)
    ensures FindTenant(policies, id) < |ts| ==> IsHome(ts, id, FindTenant(policies, id))
    ensures forall u :: IsHome(ts, id, u) ==> u == FindTenant(policies, id)
  {
    assert forall k :: 0 <= k < |ts| ==> IsPolicyOf(ts[k], policies[k]) && policies[k].tenantID == ts[k].tenantID;
  }

  lemma GateOfHome(ts: seq<LegacyTenant>, policies: seq<TenantPolicy>, lattice: seq<Grant>, req: Request, u: int)
    requires IsBuild(ts, policies, lattice) && IsHome(ts, req.tenantID, u)
    ensures UslCheck(true, policies, lattice, req).result == Admit <==>
            && Addressed(ts, req, u) && LaneLists(ts, req.lane, req.capability.cls, req.capability.scope)
            && ListsApart(ts[u].classes, req.capability.cls, req.capability.scope)
  {
    BuiltLattice(ts, req.capability, req.lane);
    HomeIsFound(ts, policies, lattice, req.tenantID);
    assert IsPolicyOf(ts[u], policies[u]);
    if req.capability.action == "execute" {
      BuiltPolicy(ts[u], policies[u], req.capability);
    }
  }

  /** The gate over any built configuration, in terms of the configuration: the first tenant with the id decides, by
      what it lists, if only apart, and by what its whole lane lists as one item. */
  lemma BuiltGate(ts: seq<LegacyTenant>, policies: seq<TenantPolicy>, lattice: seq<Grant>, req: Request)
    requires IsBuild(ts, policies, lattice)
    ensures UslCheck(true, policies, lattice, req).result == Admit <==>
            exists u :: IsHome(ts, req.tenantID, u) && Addressed(ts, req, u)
              && LaneLists(ts, req.lane, req.capability.cls, req.capability.scope)
              && ListsApart(ts[u].classes, req.capability.cls, req.capability.scope)
  {
    HomeIsFound(ts, policies, lattice, req.tenantID);
    if u :| IsHome(ts, req.tenantID, u) {
      GateOfHome(ts, policies, lattice, req, u);
    }
  }

  /** So a tenant that lists actions, but not "execute" among them, is admitted for nothing. */
  lemma NothingWithoutExecute(ts: seq<LegacyTenant>, policies: seq<TenantPolicy>, lattice: seq<Grant>, req: Request,
                              u: int, action: string)
    requires IsBuild(ts, policies, lattice) && IsHome(ts, req.tenantID, u)
    requires ListsAction(ts[u].classes, action) && !ListsAction(ts[u].classes, "execute")
    ensures UslCheck(true, policies, lattice, req).result != Admit
  {
    GateOfHome(ts, policies, lattice, req, u);
  }

  ghost predicate OneTenantPerLane(ts: seq<LegacyTenant>) {
    forall i, j :: 0 <= i < j < |ts| ==> ts[i].lane != ts[j].lane
  }

  ghost predicate DistinctIds(ts: seq<LegacyTenant>) {
    forall i, j :: 0 <= i < j < |ts| ==> ts[i].tenantID != ts[j].tenantID
  }

  ghost predicate AllTwoParts(ts: seq<LegacyTenant>) {
    forall u, k :: 0 <= u < |ts| && 0 <= k < |ts[u].classes| ==> |Split(ts[u].classes[k])| == 2
  }

  ghost predicate ListsPair(classes: seq<string>, c: Capability) {
    c.cls + "." + c.scope in classes
  }

  /** The request comes from tenant `u`, in its lane, by a named operator, for execute at low risk. */
  ghost predicate Addressed(ts: seq<LegacyTenant>, req: Request, u: int) {
    && 0 <= u < |ts| && ts[u].tenantID == req.tenantID && ts[u].lane == req.lane && req.operatorID != ""
    && req.capability.action == "execute" && req.capability.risk == "low"
  }

  /** With two-part items only, some scope is listed wherever a class is, and no action. */
  lemma TwoPartsApart(classes: seq<string>, cls: string, scope: string)
    requires forall k :: 0 <= k < |classes| ==> |Split(classes[k])| == 2
    ensures ListsApart(classes, cls, scope) <==> ListsClass(classes, cls) && ListsScope(classes, scope)
  {
    if ListsClass(classes, cls) {
      var k :| 0 <= k < |classes| && Split(classes[k])[0] == cls;
      assert ListsScope(classes, Split(classes[k])[1]);
    }
  }

  lemma LaneListsPair(ts: seq<LegacyTenant>, lane: string, c: Capability)
    requires AllTwoParts(ts)
    ensures LaneLists(ts, lane, c.cls, c.scope) <==>
            exists v :: 0 <= v < |ts| && ts[v].lane == lane && ListsPair(ts[v].classes, c)
  {
    if LaneLists(ts, lane, c.cls, c.scope) {
      var u, m :| 0 <= u < |ts| && 0 <= m < |ts[u].classes| && ts[u].lane == lane &&
        GrantOf(ts[u].classes[m], lane).capability == Capability(c.cls, c.scope, "execute", "low");
      assert Split(ts[u].classes[m]) == [c.cls, c.scope];
      TwoParts(ts[u].classes[m], c.cls, c.scope);
      assert ListsPair(ts[u].classes, c);
    }
    if v :| 0 <= v < |ts| && ts[v].lane == lane && ListsPair(ts[v].classes, c) {
      var m :| 0 <= m < |ts[v].classes| && ts[v].classes[m] == c.cls + "." + c.scope;
      assert |Split(ts[v].classes[m])| == 2;
      TwoParts(ts[v].classes[m], c.cls, c.scope);
      assert GrantOf(ts[v].classes[m], lane).capability == Capability(c.cls, c.scope, "execute", "low");
    }
  }

  /** With distinct ids and two-part items: the tenant lists the class and the scope, if only apart, and some tenant of
      its lane lists the pair. */
  lemma TwoPartGate(ts: seq<LegacyTenant>, policies: seq<TenantPolicy>, lattice: seq<Grant>, req: Request, u: nat)
    requires IsBuild(ts, policies, lattice) && DistinctIds(ts) && AllTwoParts(ts)
    requires u < |ts| && ts[u].tenantID == req.tenantID
    ensures UslCheck(true, policies, lattice, req).result == Admit <==>
            && Addressed(ts, req, u)
            && ListsClass(ts[u].classes, req.capability.cls) && ListsScope(ts[u].classes, req.capability.scope)
            && (exists v :: 0 <= v < |ts| && ts[v].lane == req.lane && ListsPair(ts[v].classes, req.capability))
  {
    GateOfHome(ts, policies, lattice, req, u);
    LaneListsPair(ts, req.lane, req.capability);
    TwoPartsApart(ts[u].classes, req.capability.cls, req.capability.scope);
  }

  lemma PairListsBoth(classes: seq<string>, c: Capability)
    requires forall k :: 0 <= k < |classes| ==> |Split(classes[k])| == 2
    requires ListsPair(classes, c)
    ensures ListsClass(classes, c.cls) && ListsScope(classes, c.scope)
  {
    var m :| 0 <= m < |classes| && classes[m] == c.cls + "." + c.scope;
    TwoParts(classes[m], c.cls, c.scope);
  }

  /** What a reader of the configuration expects the gate to admit. */
  ghost predicate Expected(ts: seq<LegacyTenant>, req: Request) {
    exists u :: Addressed(ts, req, u) && ListsPair(ts[u].classes, req.capability)
  }

  /** A pairing the tenant does not list, of a class and a scope it lists apart, that a tenant in its lane lists. */
  ghost predicate Leaks(ts: seq<LegacyTenant>, req: Request) {
    exists u, v :: Addressed(ts, req, u) && !ListsPair(ts[u].classes, req.capability)
      && ListsClass(ts[u].classes, req.capability.cls) && ListsScope(ts[u].classes, req.capability.scope)
      && 0 <= v < |ts| && ts[v].lane == req.lane && ListsPair(ts[v].classes, req.capability)
  }

  /** Exactly when the compiled gate is the expected one: for every request, unless that request is a leak. */
  lemma ExactUnlessLeak(ts: seq<LegacyTenant>, policies: seq<TenantPolicy>, lattice: seq<Grant>, req: Request)
    requires IsBuild(ts, policies, lattice) && DistinctIds(ts) && AllTwoParts(ts)
    ensures (UslCheck(true, policies, lattice, req).result == Admit <==> Expected(ts, req)) <==> !Leaks(ts, req)
  {
    if u :| 0 <= u < |ts| && ts[u].tenantID == req.tenantID {
      TwoPartGate(ts, policies, lattice, req, u);
      assert forall x :: Addressed(ts, req, x) ==> x == u;
      if ListsPair(ts[u].classes, req.capability) {
        PairListsBoth(ts[u].classes, req.capability);
      }
    } else {
      BuiltGate(ts, policies, lattice, req);
    }
  }

  /** Config compilation is exact: with distinct ids, one tenant per lane and two-part items, the gate over the built
      configuration admits exactly what the request's own tenant lists, for execute at low risk by a named operator. */
  lemma ConfigIsExact(ts: seq<LegacyTenant>, policies: seq<TenantPolicy>, lattice: seq<Grant>, req: Request)
    requires IsBuild(ts, policies, lattice) && DistinctIds(ts) && OneTenantPerLane(ts) && AllTwoParts(ts)
    ensures UslCheck(true, policies, lattice, req).result == Admit <==> Expected(ts, req)
  {
    ExactUnlessLeak(ts, policies, lattice, req);
  }

  /** Reach of built configurations: nothing but execute at low risk is ever admitted through one. */
  lemma BuiltReach(ts: seq<LegacyTenant>, policies: seq<TenantPolicy>, lattice: seq<Grant>, req: Request)
    requires IsBuild(ts, policies, lattice)
    requires UslCheck(true, policies, lattice, req).result == Admit
    ensures req.capability.action == "execute" && req.capability.risk == "low"
  {
    BuiltLattice(ts, req.capability, req.lane);
  }

  /** Who may be admitted through a built configuration, whatever the stores hold: nobody but the first operator listed
      for the tenant, if it lists one; and in the NORMAL and EXPRESS lanes nobody if it lists none. */
  lemma {:induction false} BuiltElevation(ts: seq<LegacyTenant>, policies: seq<TenantPolicy>, lattice: seq<Grant>,
                                          req: Request, w: World)
    requires IsBuild(ts, policies, lattice) && Decision(policies, lattice, req, w).result == Admit
    ensures exists u :: IsHome(ts, req.tenantID, u) && ts[u].lane == req.lane
              && OperatorFits(ts[u].operatorIDs, req.lane, req.operatorID)
  {
    AdmittedIffAdmissible(policies, lattice, req, w);
    var gs := Gates(policies, lattice, req, w);
    assert gs[4].ok && gs[6].ok && gs[7].ok && gs[8].ok && gs[14].ok && gs[15].ok;
    var u := FindTenant(policies, req.tenantID);
    HomeIsFound(ts, policies, lattice, req.tenantID);
    assert IsPolicyOf(ts[u], policies[u]);
    LaneSearchStopsToo(policies, req.tenantID, req.lane);
    assert IsHome(ts, req.tenantID, u) && OperatorFits(ts[u].operatorIDs, req.lane, req.operatorID);
  }

  /** The operator is the first one listed; if that one is blank or there is none, anyone fits in the SAFE lane. */
  ghost predicate OperatorFits(operatorIDs: seq<string>, lane: string, operatorID: string) {
    || (operatorIDs != [] && operatorID == operatorIDs[0])
    || (lane == LANE_SAFE && (operatorIDs == [] || operatorIDs[0] == ""))
  }

  // ---- Without one tenant per lane ------------------------------------------------------------------------

  const LEAKY: seq<LegacyTenant> := [
    LegacyTenant("a", "A", LANE_SAFE, ["x.y", "z.w"], false, []),
    LegacyTenant("b", "B", LANE_SAFE, ["x.w"], false, [])
  ]

  const LEAK :=
    Request("r", "a", LANE_SAFE, Capability("x", "w", "execute", "low"), "i", "o", ModelRef("p", "m", ""), "d")

  lemma LeakPassesUsl(policies: seq<TenantPolicy>, lattice: seq<Grant>)
    requires IsBuild(LEAKY, policies, lattice)
    ensures !Expected(LEAKY, LEAK) && UslCheck(true, policies, lattice, LEAK).result == Admit
  {
    LeakyIsTwoParts();
    var c := LEAK.capability;
    assert Split(LEAKY[0].classes[0])[0] == "x" && ListsClass(LEAKY[0].classes, c.cls);
    assert Split(LEAKY[0].classes[1])[1] == "w" && ListsScope(LEAKY[0].classes, c.scope);
    assert "x" + "." + "w" == "x.w" && ListsPair(LEAKY[1].classes, c) && !ListsPair(LEAKY[0].classes, c);
    TwoPartGate(LEAKY, policies, lattice, LEAK, 0);
    assert Addressed(LEAKY, LEAK, 0);
    assert LEAKY[1].lane == LEAK.lane;
  }

  /** Two tenants that share a lane: the router admits the first for a pairing that only the second lists, as soon as
      nothing stands against the request. */
  lemma SharedLaneLeaks(policies: seq<TenantPolicy>, lattice: seq<Grant>)
    requires IsBuild(LEAKY, policies, lattice)
    ensures !Expected(LEAKY, LEAK) && Decision(policies, lattice, LEAK, CALM) == ADMITTED
  {
    LeakPassesUsl(policies, lattice);
    HomeOfLeak(policies, lattice);
    LeakIsComplete();
    SafeLaneAdmits(policies, lattice, LEAK);
  }

  lemma HomeOfLeak(policies: seq<TenantPolicy>, lattice: seq<Grant>)
    requires IsBuild(LEAKY, policies, lattice)
    ensures |policies| == 2 && FindTenant(policies, LEAK.tenantID) == 0 && policies[0].sovereign == ""
  {
    assert IsHome(LEAKY, "a", 0);
    HomeIsFound(LEAKY, policies, lattice, "a");
    assert IsPolicyOf(LEAKY[0], policies[0]);
  }

  lemma LeakIsComplete()
    ensures CheckInput(LEAK).passed && CheckCapability(LEAK.capability).passed
  {
  }

  /** In the SAFE lane, with no sovereign operator, the router admits a complete request that the USL gate admits, when
      nothing stands against it. */
  lemma {:induction false} SafeLaneAdmits(policies: seq<TenantPolicy>, lattice: seq<Grant>, req: Request)
    requires UslCheck(true, policies, lattice, req).result == Admit && req.lane == LANE_SAFE
    requires CheckInput(req).passed && CheckCapability(req.capability).passed && req.payload != ""
    requires var k := FindTenant(policies, req.tenantID); k < |policies| && policies[k].sovereign == ""
    ensures Decision(policies, lattice, req, CALM) == ADMITTED
  {
    LaneSearchStopsToo(policies, req.tenantID, req.lane);
    var si := StageInput(req, policies, lattice, None, NO_FLAGS);
    forall k | 0 <= k < 9 ensures Check(STAGES[k], si).passed {
    }
    PassingStagesPassGates(si);
    ImmuneGates(policies, lattice, req, CALM);
    ProviderGates(policies, lattice, req, CALM);
  }

  lemma {:induction false} PassingStagesPassGates(si: StageInput)
    requires si.drift == None && si.flags == NO_FLAGS && forall k :: 0 <= k < 9 ==> Check(STAGES[k], si).passed
    ensures Through(Gates(si.tenants, si.lattice, si.req, CALM), 13)
  {
    FirstGates(si.tenants, si.lattice, si.req, CALM);
    PipelineGates(si, CALM, PASSED, true);
  }

  lemma LeakyIsTwoParts()
    ensures DistinctIds(LEAKY) && AllTwoParts(LEAKY)
    ensures Split("x.y") == ["x", "y"] && Split("z.w") == ["z", "w"] && Split("x.w") == ["x", "w"]
  {
    SplitPair("x", "y", "x.y");
    SplitPair("z", "w", "z.w");
    SplitPair("x", "w", "x.w");
    assert LEAKY[0].classes == ["x.y", "z.w"] && LEAKY[1].classes == ["x.w"];
  }

  lemma SplitPair(a: string, b: string, s: string)
    requires '.' !in a && '.' !in b && s == a + "." + b
    ensures Split(s) == [a, b]
  {
    assert [a, b][1..] == [b];
    SplitOfJoin([a, b]);
  }
}
