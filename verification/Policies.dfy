/** The deterministic policy engine: which of the applicable rules decides an action. */
module Policies {
  import opened Prelude
  import opened Ordering

  datatype Effect = Allow | RequireApproval | Deny

  datatype ScopeType = InstallationScope | ProjectScope | AgentScope | UnknownScope

  datatype Policy = Policy(id: Id, tenant: Option<Id>, active: bool, scopeType: ScopeType, scopeId: Option<Id>,
                           action: string, effect: Effect, risk: Option<string>, priority: int, createdAt: Time)

  datatype Action = Action(tenant: Option<Id>, agent: Id, command: string, project: Option<Id>)

  datatype Decision = Decision(effect: Effect, policy: Option<Id>, risk: Option<string>)

  const ANY := "*"

  predicate Matches(p: Policy, a: Action) {
    && (match p.scopeType
        case InstallationScope => true
        case AgentScope => p.scopeId == Some(a.agent)
        case ProjectScope => a.project.Some? && p.scopeId == a.project
        case UnknownScope => false)
    && (p.action == ANY || p.action == a.command)
  }

  /** An active rule of the tenant that covers the action. */
  predicate Applies(p: Policy, a: Action) {
    p.tenant == a.tenant && p.active && Matches(p, a)
  }

  function Specificity(s: ScopeType): int {
    match s case AgentScope => 3 case ProjectScope => 2 case InstallationScope => 1 case UnknownScope => 0
  }

  /** The sort key; the smallest wins. */
  function ResolutionKey(p: Policy): seq<int>
    ensures |ResolutionKey(p)| == 5
  {
    [-p.priority, -Specificity(p.scopeType), -(if p.action == ANY then 0 else 1), p.createdAt, p.id]
  }

  /** Tuple comparison. */
  predicate LexLess(a: seq<int>, b: seq<int>)
    requires |a| == |b|
  {
    a != [] && (a[0] < b[0] || (a[0] == b[0] && LexLess(a[1..], b[1..])))
  }

  predicate Beats(p: Policy, q: Policy) {
    LexLess(ResolutionKey(p), ResolutionKey(q))
  }

  lemma {:induction false} LexTrans(a: seq<int>, b: seq<int>, c: seq<int>)
    requires |a| == |b| == |c| && LexLess(a, b) && LexLess(b, c)
    ensures LexLess(a, c)
  {
    if a[0] == b[0] == c[0] {
      LexTrans(a[1..], b[1..], c[1..]);
    }
  }

  lemma {:induction false} LexTotal(a: seq<int>, b: seq<int>)
    requires |a| == |b|
    ensures a == b || LexLess(a, b) || LexLess(b, a)
    ensures !(LexLess(a, b) && LexLess(b, a)) && !LexLess(a, a)
  {
    if a != [] {
      LexTotal(a[1..], b[1..]);
      assert a == [a[0]] + a[1..] && b == [b[0]] + b[1..];
    }
  }

  /** Rows of a table with a primary key. */
  ghost predicate DistinctIds(s: set<Policy>) {
    forall p, q | p in s && q in s && p.id == q.id :: p == q
  }

  lemma BeatsIsTotal(s: set<Policy>)
    requires DistinctIds(s)
    ensures StrictTotal(Beats, s)
  {
    forall p | p in s ensures !Beats(p, p) { LexTotal(ResolutionKey(p), ResolutionKey(p)); }
    forall p, q | p in s && q in s && p != q
      ensures Beats(p, q) || Beats(q, p)
    {
      LexTotal(ResolutionKey(p), ResolutionKey(q));
      assert ResolutionKey(p)[4] != ResolutionKey(q)[4];
    }
    forall p, q, r | p in s && q in s && r in s && Beats(p, q) && Beats(q, r)
      ensures Beats(p, r)
    {
      LexTrans(ResolutionKey(p), ResolutionKey(q), ResolutionKey(r));
    }
  }

  /** A rule for one agent is narrower than a project's, which is narrower than the installation's. */
  predicate Narrower(p: ScopeType, q: ScopeType) {
    match p
    case AgentScope => q != AgentScope
    case ProjectScope => q == InstallationScope || q == UnknownScope
    case InstallationScope => q == UnknownScope
    case UnknownScope => false
  }

  /** The documented precedence: priority, then narrower scope, then exact action, then seniority. */
  lemma PrecedenceIsDocumented(p: Policy, q: Policy)
    ensures Beats(p, q) <==>
            || p.priority > q.priority
            || (p.priority == q.priority &&
                 (|| Narrower(p.scopeType, q.scopeType)
                  || (p.scopeType == q.scopeType &&
                       (|| (p.action != ANY && q.action == ANY)
                        || ((p.action == ANY <==> q.action == ANY) &&
                             (p.createdAt < q.createdAt || (p.createdAt == q.createdAt && p.id < q.id)))))))
  {
    var a, b := ResolutionKey(p), ResolutionKey(q);
    LexFrom(a, b, 0);
    LexFrom(a, b, 1);
    LexFrom(a, b, 2);
    LexFrom(a, b, 3);
    LexFrom(a, b, 4);
    assert a[0..] == a && b[0..] == b && a[5..] == [] && b[5..] == [];
  }

  lemma LexFrom(a: seq<int>, b: seq<int>, i: nat)
    requires |a| == |b| && i < |a|
    ensures LexLess(a[i..], b[i..]) <==> a[i] < b[i] || (a[i] == b[i] && LexLess(a[i + 1..], b[i + 1..]))
  {
    assert a[i..][1..] == a[i + 1..] && b[i..][1..] == b[i + 1..];
  }

  function Applicable(s: set<Policy>, a: Action): set<Policy> {
    set p | p in s && Applies(p, a)
  }

  /** The reference decision: it depends on the set of rules alone. */
  ghost function Resolve(s: set<Policy>, a: Action, fallback: Effect): Decision
    requires DistinctIds(s)
  {
    var applicable := Applicable(s, a);
    BeatsIsTotal(applicable);
    if applicable == {} then Decision(fallback, None, None)
    else var w := Least(Beats, applicable); Decision(w.effect, Some(w.id), w.risk)
  }

  /** The winner is unmatched: no other applicable rule beats it, and nothing else has that property. */
  lemma WinnerIsUnique(s: set<Policy>, a: Action, fallback: Effect, w: Policy)
    requires DistinctIds(s) && w in Applicable(s, a)
    ensures Resolve(s, a, fallback).policy == Some(w.id) <==>
            forall p | p in Applicable(s, a) :: !Beats(p, w)
  {
    var applicable := Applicable(s, a);
    BeatsIsTotal(applicable);
    if forall p | p in applicable :: !Beats(p, w) {
      assert IsLeast(Beats, applicable, w);
      LeastUnique(Beats, applicable, w);
    } else {
      var p :| p in applicable && Beats(p, w);
      assert !Beats(Least(Beats, applicable), Least(Beats, applicable));
    }
  }

  /**
   Which rules count: a decision is some rule's only if that rule is active, of the action's tenant, on its
   command or on any, and scoped to the installation, to its agent or to its project; with no such rule the
   fallback decides, and only then.
   */
  lemma OnlyRelevantRulesDecide(s: set<Policy>, a: Action, fallback: Effect)
    requires DistinctIds(s)
    ensures var d := Resolve(s, a, fallback);
            && (d.policy.Some? ==>
                  exists p ::
                    && p in s && d == Decision(p.effect, Some(p.id), p.risk)
                    && p.active && p.tenant == a.tenant && (p.action == "*" || p.action == a.command)
                    && (|| p.scopeType == InstallationScope
                        || (p.scopeType == AgentScope && p.scopeId == Some(a.agent))
                        || (p.scopeType == ProjectScope && p.scopeId.Some? && p.scopeId == a.project)))
            && (d.policy.None? ==> d == Decision(fallback, None, None))
            && (d.policy.None? <==> forall p | p in s ::
                  !(&& p.active && p.tenant == a.tenant && (p.action == "*" || p.action == a.command)
                    && (|| p.scopeType == InstallationScope
                        || (p.scopeType == AgentScope && p.scopeId == Some(a.agent))
                        || (p.scopeType == ProjectScope && p.scopeId.Some? && p.scopeId == a.project))))
  {
    var applicable := Applicable(s, a);
    BeatsIsTotal(applicable);
    if applicable != {} { assert Least(Beats, applicable) in applicable; }
    forall p | p in s ensures p in applicable <==> Applies(p, a) {}
  }

  /** A rule that is inactive, foreign, on another command or out of scope may as well not be there. */
  lemma IrrelevantRulesDoNotCount(s: set<Policy>, q: Policy, a: Action, fallback: Effect)
    requires DistinctIds(s) && q in s
    requires || !q.active || q.tenant != a.tenant || (q.action != "*" && q.action != a.command)
             || q.scopeType == UnknownScope
             || (q.scopeType == AgentScope && q.scopeId != Some(a.agent))
             || (q.scopeType == ProjectScope && (a.project.None? || q.scopeId != a.project))
    ensures Resolve(s - {q}, a, fallback) == Resolve(s, a, fallback)
  {
    assert Applicable(s - {q}, a) == Applicable(s, a);
  }

  /** One more rule either changes nothing or decides by itself, and decides only if it beats the winner. */
  lemma OneMoreRule(s: set<Policy>, q: Policy, a: Action, fallback: Effect)
    requires DistinctIds(s + {q}) && q !in s
    ensures var before, after := Resolve(s, a, fallback), Resolve(s + {q}, a, fallback);
            var takes := Applies(q, a) && forall p | p in Applicable(s, a) :: Beats(q, p);
            after == if takes then Decision(q.effect, Some(q.id), q.risk) else before
  {
    var known, all := Applicable(s, a), Applicable(s + {q}, a);
    BeatsIsTotal(all);
    if Applies(q, a) {
      assert all == known + {q};
      if known != {} {
        LeastOfInsert(Beats, known, q);
      } else {
        LeastUnique(Beats, all, q);
      }
    } else {
      assert all == known;
    }
  }

  // ---------------------------------------------------------------- the engine

  datatype Audit = Audit(action: Action, decision: Decision)

  /** Filter, sort, take the first; the decision is also audited. */
  method EvaluatePolicy(policies: seq<Policy>, a: Action, fallback: Effect) returns (d: Decision, audit: Audit)
    requires DistinctIds(Elements(policies))
    requires forall i, j | 0 <= i < j < |policies| :: policies[i] != policies[j]
    ensures d == Resolve(Elements(policies), a, fallback)
    ensures audit == Audit(a, d)
  {
    var applicable: seq<Policy> := [];
    for i := 0 to |policies|
      invariant Elements(applicable) == Applicable(Elements(policies[..i]), a)
      invariant forall p | p in applicable :: p in policies[..i]
      invariant forall j, k | 0 <= j < k < |applicable| :: applicable[j] != applicable[k]
    {
      assert Elements(policies[..i + 1]) == Elements(policies[..i]) + {policies[i]};
      if Applies(policies[i], a) {
        assert Elements(applicable + [policies[i]]) == Elements(applicable) + {policies[i]};
        applicable := applicable + [policies[i]];
      }
    }
    assert policies[..|policies|] == policies;
    BeatsIsTotal(Elements(applicable));
    if applicable != [] {
      assert applicable[0] in Elements(applicable);
      applicable := Sort(Beats, applicable);
      var w := applicable[0];
      d := Decision(w.effect, Some(w.id), w.risk);
    } else {
      d := Decision(fallback, None, None);
    }
    audit := Audit(a, d);
  }

  /** A listing of the applicable rules, sorted by the resolution key, however the sort goes about it. */
  ghost predicate SortedListing(rules: set<Policy>, a: Action, sorted: seq<Policy>) {
    Elements(sorted) == Applicable(rules, a) && Increasing(Beats, sorted)
  }

  /** Any two sorted listings of the applicable rules are the same, and their head decides. */
  lemma SortedHeadDecides(rules: set<Policy>, a: Action, fallback: Effect, p: seq<Policy>, q: seq<Policy>)
    requires DistinctIds(rules) && SortedListing(rules, a, p) && SortedListing(rules, a, q)
    ensures p == q
    ensures Resolve(rules, a, fallback) ==
            if p == [] then Decision(fallback, None, None) else Decision(p[0].effect, Some(p[0].id), p[0].risk)
  {
    BeatsIsTotal(Applicable(rules, a));
    ArrangeUnique(Beats, p);
    ArrangeUnique(Beats, q);
    if p != [] { HeadIsLeast(Beats, p); }
  }
}
