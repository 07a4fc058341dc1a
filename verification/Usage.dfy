/** Usage records, the totals budgets and reports read, and the paged list that reconciles with them. */
module Usage {
  import opened Prelude
  import opened Ordering
  import opened Sums
  import Keyset
  import Pricing

  /** One consumption with the rate, the version and the cost the server computed for it, in units of 1e-8. */
  datatype Record = Record(id: Id, tenant: Option<Id>, agent: Option<Id>, project: Option<Id>, run: Option<Id>,
                           eventId: string, input: int, output: int, calls: int, durationMs: Option<int>,
                           rate: Pricing.ModelRate, version: string, cost: int, occurredAt: Time)

  datatype Scope = Installation | Project(id: Option<Id>) | Agent(id: Option<Id>)

  /** `occurred_at DESC, id DESC` */
  predicate Newer(a: Record, b: Record) {
    a.occurredAt > b.occurredAt || (a.occurredAt == b.occurredAt && a.id > b.id)
  }

  ghost predicate DistinctIds(records: set<Record>) {
    forall a, b | a in records && b in records && a.id == b.id :: a == b
  }

  lemma NewestFirstIsTotal(records: set<Record>)
    requires DistinctIds(records)
    ensures StrictTotal(Newer, records)
  {
  }

  // ---------------------------------------------------------------- totals

  predicate NotBefore(r: Record, since: Option<Time>) {
    since.Some? ==> since.value <= r.occurredAt
  }

  predicate InScope(r: Record, tenant: Option<Id>, scope: Scope, since: Option<Time>, until: Option<Time>) {
    && r.tenant == tenant
    && (match scope
        case Installation => true
        case Project(p) => p.None? || r.project == p
        case Agent(a) => a.None? || r.agent == a)
    && NotBefore(r, since)
    && (until.Some? ==> r.occurredAt < until.value)
  }

  function Scoped(records: set<Record>, tenant: Option<Id>, scope: Scope, since: Option<Time>, until: Option<Time>): set<Record> {
    set r | r in records && InScope(r, tenant, scope, since, until)
  }

  function CostOf(r: Record): int { r.cost }
  function TokensOf(r: Record): int { r.input + r.output }
  function CallsOf(r: Record): int { r.calls }

  ghost function ConsumptionFor(records: set<Record>, tenant: Option<Id>, scope: Scope,
                                since: Option<Time>, until: Option<Time>): int {
    SumOver(Scoped(records, tenant, scope, since, until), CostOf)
  }

  method ComputeConsumption(records: set<Record>, tenant: Option<Id>, scope: Scope, since: Option<Time>, until: Option<Time>)
    returns (total: int)
    ensures total == ConsumptionFor(records, tenant, scope, since, until)
  {
    total := AddUp(Scoped(records, tenant, scope, since, until), CostOf);
  }

  /** The records summed: of the tenant, of the project or agent if one is named, from the start of the window to before its end. */
  lemma ConsumptionIsSum(records: set<Record>, tenant: Option<Id>, scope: Scope, since: Option<Time>, until: Option<Time>)
    ensures ConsumptionFor(records, tenant, scope, since, until) ==
            SumOver((set r | r in records && r.tenant == tenant
                             && (scope.Project? && scope.id.Some? ==> r.project == scope.id)
                             && (scope.Agent? && scope.id.Some? ==> r.agent == scope.id)
                             && (since.Some? ==> r.occurredAt >= since.value) && (until.Some? ==> r.occurredAt < until.value)), CostOf)
  {
    assert Scoped(records, tenant, scope, since, until) ==
           set r | r in records && r.tenant == tenant
                   && (scope.Project? && scope.id.Some? ==> r.project == scope.id)
                   && (scope.Agent? && scope.id.Some? ==> r.agent == scope.id)
                   && (since.Some? ==> r.occurredAt >= since.value) && (until.Some? ==> r.occurredAt < until.value);
  }

  // ---------------------------------------------------------------- rounding

  function ExactOf(r: Record): real { Pricing.Exact(r.rate, r.input, r.output) }

  /** The stored cost is the stored tokens at the stored rate. */
  predicate IsPriced(r: Record) {
    r.cost == Pricing.Cost(r.rate, r.input, r.output)
  }

  /** Whatever models and versions mix, the stored total is within half a unit a record of the exact one. */
  lemma {:induction false} TotalIsNearExact(records: set<Record>)
    requires forall r | r in records :: IsPriced(r)
    ensures -0.5 * |records| as real <= SumOver(records, CostOf) as real - RealOver(records, ExactOf) <= 0.5 * |records| as real
    decreases |records|
  {
    if records != {} {
      var r := Pick(records);
      TotalIsNearExact(records - {r});
      assert IsPriced(r) && |records| == |records - {r}| + 1;
    }
  }

  // ---------------------------------------------------------------- the report and the list

  datatype Filter = Filter(tenant: Option<Id>, project: Option<Id>, agent: Option<Id>)

  predicate Matches(r: Record, f: Filter) {
    r.tenant == f.tenant && (f.project.None? || r.project == f.project) && (f.agent.None? || r.agent == f.agent)
  }

  function Matching(records: set<Record>, f: Filter): set<Record> {
    set r | r in records && Matches(r, f)
  }

  datatype Aggregate = Aggregate(totalCost: int, totalTokens: int, totalCalls: int, recordCount: nat)

  ghost function AggregateOf(records: set<Record>, f: Filter, since: Option<Time>): Aggregate {
    var rows := set r | r in Matching(records, f) && NotBefore(r, since);
    Aggregate(SumOver(rows, CostOf), SumOver(rows, TokensOf), SumOver(rows, CallsOf), |rows|)
  }

  /** What the report adds up: the cost, the tokens and the calls of the tenant's records, of one project or agent if named. */
  lemma ReportIsSum(records: set<Record>, f: Filter, since: Option<Time>)
    ensures var a := AggregateOf(records, f, since);
            var rows := set r | r in records && r.tenant == f.tenant && (f.project.Some? ==> r.project == f.project)
                                && (f.agent.Some? ==> r.agent == f.agent) && (since.Some? ==> r.occurredAt >= since.value);
            && a.totalCost == SumOver(rows, (r: Record) => r.cost) && a.recordCount == |rows|
            && a.totalTokens == SumOver(rows, (r: Record) => r.input + r.output) && a.totalCalls == SumOver(rows, (r: Record) => r.calls)
  {
    var rows := set r | r in records && r.tenant == f.tenant && (f.project.Some? ==> r.project == f.project)
                        && (f.agent.Some? ==> r.agent == f.agent) && (since.Some? ==> r.occurredAt >= since.value);
    assert rows == set r | r in Matching(records, f) && NotBefore(r, since);
    SameSums(rows, CostOf, (r: Record) => r.cost);
    SameSums(rows, TokensOf, (r: Record) => r.input + r.output);
    SameSums(rows, CallsOf, (r: Record) => r.calls);
  }

  lemma {:induction false} SameSums(rows: set<Record>, f: Record -> int, g: Record -> int)
    requires forall r :: f(r) == g(r)
    ensures SumOver(rows, f) == SumOver(rows, g)
    decreases |rows|
  {
    if rows != {} {
      SameSums(rows - {Pick(rows)}, f, g);
    }
  }

  method ListUsage(records: set<Record>, f: Filter, cursor: Option<Record>, limit: int) returns (p: Keyset.Page<Record>)
    requires DistinctIds(records)
    ensures StrictTotal(Newer, Matching(records, f))
    ensures p == Keyset.PageOf(Newer, Matching(records, f), cursor, limit)
  {
    NewestFirstIsTotal(Matching(records, f));
    p := Keyset.ListPage(Newer, Matching(records, f), cursor, limit);
  }

  /** Paging through an unchanging table ends on time and adds up to the report, and to the budget's figure. */
  lemma PagesReconcile(records: set<Record>, f: Filter, limit: int, tables: seq<set<Record>>)
    requires DistinctIds(records)
    requires forall i | 0 <= i < |tables| :: tables[i] == Matching(records, f)
    requires |tables| >= Keyset.PagesFor(|Matching(records, f)|, limit)
    ensures StrictTotal(Newer, Matching(records, f))
    ensures var walk := Keyset.Walk(Newer, tables, None, limit);
            var seen, total := Keyset.Seen(walk), AggregateOf(records, f, None);
            && Keyset.Finished(walk) && |walk| == Keyset.PagesFor(total.recordCount, limit)
            && |seen| == total.recordCount
            && SumSeq(seen, CostOf) == total.totalCost
            && SumSeq(seen, TokensOf) == total.totalTokens
            && SumSeq(seen, CallsOf) == total.totalCalls
            && (f.project.None? && f.agent.None? ==>
                  SumSeq(seen, CostOf) == ConsumptionFor(records, f.tenant, Installation, None, None))
  {
    var rows := Matching(records, f);
    NewestFirstIsTotal(rows);
    Keyset.QuietWalk(Newer, rows, limit, tables);
    assert (set r | r in rows && NotBefore(r, None)) == rows;
    SumOfArranged(Newer, rows, CostOf);
    SumOfArranged(Newer, rows, TokensOf);
    SumOfArranged(Newer, rows, CallsOf);
    if f.project.None? && f.agent.None? {
      assert Scoped(records, f.tenant, Installation, None, None) == rows;
    }
  }

  /** With records arriving between pages, nothing present at the start is missed and nothing shows twice. */
  lemma PagesSurviveInserts(history: seq<set<Record>>, final: set<Record>, f: Filter, limit: int)
    requires DistinctIds(final) && Keyset.Growing(history, final)
    ensures forall i | 0 <= i < |history| :: StrictTotal(Newer, Matching(history[i], f))
    ensures var tables := seq(|history|, i requires 0 <= i < |history| => Matching(history[i], f));
            var walk := Keyset.Walk(Newer, tables, None, limit);
            && (forall i, j | 0 <= i < j < |Keyset.Seen(walk)| ::
                  var a, b := Keyset.Seen(walk)[i], Keyset.Seen(walk)[j];
                  a.occurredAt > b.occurredAt || (a.occurredAt == b.occurredAt && a.id > b.id))
            && (forall r | r in Keyset.Seen(walk) ::
                  && r in final && r.tenant == f.tenant
                  && (f.project.Some? ==> r.project == f.project) && (f.agent.Some? ==> r.agent == f.agent))
            && (Keyset.Finished(walk) ==>
                  forall r | && r in history[0] && r.tenant == f.tenant
                             && (f.project.Some? ==> r.project == f.project) && (f.agent.Some? ==> r.agent == f.agent) ::
                    r in Keyset.Seen(walk))
  {
    var tables := seq(|history|, i requires 0 <= i < |history| => Matching(history[i], f));
    forall i | 0 <= i < |history|
      ensures StrictTotal(Newer, Matching(history[i], f))
    {
      NewestFirstIsTotal(Matching(history[i], f));
    }
    NewestFirstIsTotal(Matching(final, f));
    assert Keyset.Growing(tables, Matching(final, f));
    Keyset.WalkIsExact(Newer, Matching(final, f), tables, None, limit);
    Keyset.FirstRowsAreSeen(Newer, Matching(final, f), tables, None, limit);
    var walk := Keyset.Walk(Newer, tables, None, limit);
    if Keyset.Finished(walk) {
      forall r | r in history[0] && Matches(r, f) ensures r in Keyset.Seen(walk) {
        assert r in Keyset.Eligible(Newer, tables[0], None);
      }
    }
  }
}
