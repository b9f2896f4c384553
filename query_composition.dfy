/** How `QuerqyProcessor` folds the queries produced by the Querqy query
    parser (a main query, optional boost queries and optional filter
    queries) into the single Lucene query it hands back to OpenSearch. */
module QueryComposition {
  import opened Wrappers
  import opened JavaLang
  import opened Collections

  /** Lucene's `BooleanClause.Occur`. */
  datatype Occur = Must | Should | Filter | MustNot

  /** `BooleanClause.isScoring`: the clause contributes to the score. */
  predicate IsScoring(o: Occur) {
    o == Must || o == Should
  }

  /** The Lucene queries the composition looks at. Only `BooleanQuery` is
      inspected; the other kinds are carried through unchanged. */
  datatype Query =
    | TermQuery(field: string, text: string)
    | DisMaxQuery(disjuncts: seq<Query>, tieBreaker: Float32)
    | BooleanQuery(clauses: seq<Clause>, minimumShouldMatch: int)

  datatype Clause = Clause(occur: Occur, query: Query)

  /** The part of Querqy's `LuceneQueries` that is composed here. `None` is
      a `null` list. */
  datatype LuceneQueries = LuceneQueries(
    mainQuery: Query,
    filterQueries: Option<seq<Query>>,
    boostQueries: Option<seq<Query>>)

  predicate NullOrEmpty<T>(list: Option<seq<T>>) {
    list.None? || list.value == []
  }

  /** The shortcut: nothing to boost or filter, and the main query is a
      boolean query of one scoring clause, whose query is returned as it is. */
  predicate ShortCircuits(queries: LuceneQueries) {
    NullOrEmpty(queries.boostQueries) && NullOrEmpty(queries.filterQueries)
    && queries.mainQuery.BooleanQuery?
    && |queries.mainQuery.clauses| == 1
    && IsScoring(queries.mainQuery.clauses[0].occur)
  }

  /** A boolean filter whose clauses are added one by one to the outer
      query instead of nesting it: fewer than two clauses, no more clauses
      than its minimum-should-match, or only prohibited clauses. */
  predicate Unpackable(filter: Query)
    requires filter.BooleanQuery?
  {
    |filter.clauses| < 2
    || |filter.clauses| <= filter.minimumShouldMatch
    || forall i :: 0 <= i < |filter.clauses| ==> filter.clauses[i].occur == MustNot
  }

  /** An unpacked clause: prohibited stays prohibited, anything else
      becomes a non-scoring filter. */
  function Unpack(c: Clause): Clause {
    Clause(if c.occur == MustNot then MustNot else Filter, c.query)
  }

  function UnpackAll(cs: seq<Clause>): (r: seq<Clause>)
    ensures |r| == |cs|
    ensures forall i :: 0 <= i < |cs| ==> r[i] == Unpack(cs[i])
  {
    if cs == [] then [] else UnpackAll(cs[..|cs| - 1]) + [Unpack(cs[|cs| - 1])]
  }

  /** The clauses one filter query adds to the outer query. */
  function FilterContribution(filter: Query): seq<Clause> {
    if filter.BooleanQuery? && Unpackable(filter) then UnpackAll(filter.clauses)
    else [Clause(Filter, filter)]
  }

  /** The clauses a list of filter queries adds, in list order. */
  function FilterClauses(filters: seq<Query>): seq<Clause> {
    if filters == [] then []
    else FilterClauses(filters[..|filters| - 1]) + FilterContribution(filters[|filters| - 1])
  }

  /** What `appendFilterQueries` adds; a `null` list adds nothing. */
  function AppendedFilterClauses(queries: LuceneQueries): seq<Clause> {
    match queries.filterQueries
    case None => []
    case Some(filters) => FilterClauses(filters)
  }

  /** Every boost query as an optional (SHOULD) clause, in list order. */
  function BoostClauses(boosts: seq<Query>): seq<Clause> {
    if boosts == [] then []
    else BoostClauses(boosts[..|boosts| - 1]) + [Clause(Should, boosts[|boosts| - 1])]
  }

  /** The query `parseQuery` returns for the parser's output `queries`. */
  function Composed(queries: LuceneQueries): Query {
    if ShortCircuits(queries) then queries.mainQuery.clauses[0].query
    else
      BooleanQuery(
        [Clause(Must, queries.mainQuery)]
        + BoostClauses(queries.boostQueries.GetOr([]))
        + AppendedFilterClauses(queries),
        0)
  }

  /** Lucene's `BooleanQuery.Builder`. */
  class BooleanQueryBuilder {
    var clauses: seq<Clause>

    constructor()
      ensures clauses == []
    {
      clauses := [];
    }

    method Add(query: Query, occur: Occur)
      modifies this
      ensures clauses == old(clauses) + [Clause(occur, query)]
    {
      clauses := clauses + [Clause(occur, query)];
    }

    /** `build()`: the builder's clauses, minimum-should-match left at 0. */
    function Build(): Query
      reads this
    {
      BooleanQuery(clauses, 0)
    }
  }

  /** `QuerqyProcessor.appendFilterQueries`. */
  method AppendFilterQueries(queries: LuceneQueries, builder: BooleanQueryBuilder)
    modifies builder
    ensures builder.clauses == old(builder.clauses) + AppendedFilterClauses(queries)
  {
    if queries.filterQueries.Some? {
      var filters := queries.filterQueries.value;
      for i := 0 to |filters|
        invariant builder.clauses == old(builder.clauses) + FilterClauses(filters[..i])
      {
        AppendFilterQuery(filters[i], builder);
        PrefixExtend(filters, i);
        FilterClausesSnoc(filters[..i], filters[i]);
      }
      assert filters[..|filters|] == filters;
    }
  }

  /** The body of the loop of `appendFilterQueries`: one filter query. */
  method AppendFilterQuery(query: Query, builder: BooleanQueryBuilder)
    modifies builder
    ensures builder.clauses == old(builder.clauses) + FilterContribution(query)
  {
    if query.BooleanQuery? {
      if |query.clauses| < 2 || |query.clauses| <= query.minimumShouldMatch
         || forall k :: 0 <= k < |query.clauses| ==> query.clauses[k].occur == MustNot
      {
        AppendUnpacked(query.clauses, builder);
      } else {
        builder.Add(query, Filter);
      }
    } else {
      builder.Add(query, Filter);
    }
  }

  /** The inner loop of `appendFilterQueries`: the clauses of an unpacked
      boolean filter, MUST_NOT kept and everything else as FILTER. */
  method AppendUnpacked(clauses: seq<Clause>, builder: BooleanQueryBuilder)
    modifies builder
    ensures builder.clauses == old(builder.clauses) + UnpackAll(clauses)
  {
    for j := 0 to |clauses|
      invariant builder.clauses == old(builder.clauses) + UnpackAll(clauses[..j])
    {
      var clause := clauses[j];
      assert clauses[..j + 1][..j] == clauses[..j];
      if clause.occur == MustNot {
        builder.Add(clause.query, MustNot);
      } else {
        builder.Add(clause.query, Filter);
      }
    }
    assert clauses[..|clauses|] == clauses;
  }

  /** The tail of `QuerqyProcessor.parseQuery`, from the parser's output on. */
  method ComposeQuery(queries: LuceneQueries) returns (result: Query)
    ensures result == Composed(queries)
  {
    if NullOrEmpty(queries.boostQueries) && NullOrEmpty(queries.filterQueries)
       && queries.mainQuery.BooleanQuery?
    {
      var clauses := queries.mainQuery.clauses;
      if |clauses| == 1 {
        var onlyClause := clauses[0];
        if IsScoring(onlyClause.occur) {
          return onlyClause.query;
        }
      }
    }
    var builder := new BooleanQueryBuilder();
    builder.Add(queries.mainQuery, Must);
    if queries.boostQueries.Some? {
      var boosts := queries.boostQueries.value;
      for i := 0 to |boosts|
        invariant builder.clauses == [Clause(Must, queries.mainQuery)] + BoostClauses(boosts[..i])
      {
        assert boosts[..i + 1][..i] == boosts[..i];
        builder.Add(boosts[i], Should);
      }
      assert boosts[..|boosts|] == boosts;
    }
    AppendFilterQueries(queries, builder);
    result := builder.Build();
  }

  // ---------------------------------------------------------------------
  // Properties of the composition

  lemma {:induction false} BoostClausesShape(boosts: seq<Query>)
    ensures |BoostClauses(boosts)| == |boosts|
    ensures forall i :: 0 <= i < |boosts| ==> BoostClauses(boosts)[i] == Clause(Should, boosts[i])
  {
    if boosts != [] {
      BoostClausesShape(boosts[..|boosts| - 1]);
    }
  }

  /** Filter clauses never score: each is a FILTER or a MUST_NOT clause. */
  lemma {:induction false} FilterClausesNeverScore(filters: seq<Query>)
    ensures forall c :: c in FilterClauses(filters) ==> c.occur == Filter || c.occur == MustNot
  {
    if filters != [] {
      FilterClausesNeverScore(filters[..|filters| - 1]);
    }
  }

  /** Adding one more filter adds its contribution at the end. */
  lemma FilterClausesSnoc(init: seq<Query>, last: Query)
    ensures FilterClauses(init + [last]) == FilterClauses(init) + FilterContribution(last)
  {
    SnocInit(init, last);
  }

  /** The filters of a concatenated list contribute the concatenation of
      their contributions: each filter is handled on its own, in order. */
  lemma {:induction false} FilterClausesAppend(a: seq<Query>, b: seq<Query>)
    ensures FilterClauses(a + b) == FilterClauses(a) + FilterClauses(b)
  {
    if b == [] {
      assert a + b == a;
    } else {
      var init, last := b[..|b| - 1], b[|b| - 1];
      SplitLast(a, b);
      FilterClausesAppend(a, init);
      Associative(FilterClauses(a), FilterClauses(init), FilterContribution(last));
    }
  }

  /** The first filter's contribution comes first. */
  lemma FilterClausesCons(f: Query, rest: seq<Query>)
    ensures FilterClauses([f] + rest) == FilterContribution(f) + FilterClauses(rest)
  {
    assert [f][..0] == [];
    assert FilterClauses([f]) == FilterContribution(f);
    FilterClausesAppend([f], rest);
  }

  /** The shortcut: a main boolean query of one scoring clause and nothing
      to boost or filter gives that clause's query, unwrapped. */
  lemma ShortCircuitUnwraps(queries: LuceneQueries, occur: Occur, inner: Query, mm: int)
    requires NullOrEmpty(queries.boostQueries) && NullOrEmpty(queries.filterQueries)
    requires queries.mainQuery == BooleanQuery([Clause(occur, inner)], mm)
    requires IsScoring(occur)
    ensures Composed(queries) == inner
  {
  }

  /** A lone FILTER or MUST_NOT clause is not unwrapped: the main query is
      wrapped as the only (MUST) clause of a new boolean query. */
  lemma LoneNonScoringClauseIsWrapped(queries: LuceneQueries, occur: Occur, inner: Query, mm: int)
    requires NullOrEmpty(queries.boostQueries) && NullOrEmpty(queries.filterQueries)
    requires queries.mainQuery == BooleanQuery([Clause(occur, inner)], mm)
    requires !IsScoring(occur)
    ensures Composed(queries) == BooleanQuery([Clause(Must, queries.mainQuery)], 0)
  {
  }

  /** The result contains the main query as a required clause exactly when
      the shortcut is not taken. */
  lemma WrapsMainIffNoShortCircuit(queries: LuceneQueries)
    ensures (Composed(queries).BooleanQuery? && |Composed(queries).clauses| > 0
             && Composed(queries).clauses[0] == Clause(Must, queries.mainQuery))
            <==> !ShortCircuits(queries)
  {
    if ShortCircuits(queries) {
      var inner := queries.mainQuery.clauses[0].query;
      assert inner < queries.mainQuery;
    }
  }

  /** Without the shortcut the result is a boolean query (minimum should
      match 0) whose first clause is the main query as MUST, followed by
      every boost query as SHOULD in list order, followed by the filter
      clauses, none of which scores. */
  lemma ComposedLayout(queries: LuceneQueries)
    requires !ShortCircuits(queries)
    ensures var r := Composed(queries);
      var boosts := queries.boostQueries.GetOr([]);
      && r.BooleanQuery? && r.minimumShouldMatch == 0
      && |r.clauses| == 1 + |boosts| + |AppendedFilterClauses(queries)|
      && r.clauses[0] == Clause(Must, queries.mainQuery)
      && (forall i :: 0 <= i < |boosts| ==> r.clauses[1 + i] == Clause(Should, boosts[i]))
      && (forall i :: 1 + |boosts| <= i < |r.clauses| ==> !IsScoring(r.clauses[i].occur))
  {
    var boosts := queries.boostQueries.GetOr([]);
    var bcs := BoostClauses(boosts);
    var fcs := AppendedFilterClauses(queries);
    BoostClausesShape(boosts);
    AppendedFilterClausesNeverScore(queries);
    assert Composed(queries).clauses == [Clause(Must, queries.mainQuery)] + bcs + fcs;
    ConcatenationLayout(Clause(Must, queries.mainQuery), bcs, fcs);
  }

  lemma AppendedFilterClausesNeverScore(queries: LuceneQueries)
    ensures forall c :: c in AppendedFilterClauses(queries) ==> !IsScoring(c.occur)
  {
    if queries.filterQueries.Some? {
      FilterClausesNeverScore(queries.filterQueries.value);
    }
  }

  lemma ConcatenationLayout(first: Clause, middle: seq<Clause>, last: seq<Clause>)
    ensures var cs := [first] + middle + last;
      && |cs| == 1 + |middle| + |last|
      && cs[0] == first
      && (forall i :: 0 <= i < |middle| ==> cs[1 + i] == middle[i])
      && (forall i :: 1 + |middle| <= i < |cs| ==> cs[i] in last)
  {
    var cs := [first] + middle + last;
    forall i | 1 + |middle| <= i < |cs| ensures cs[i] in last {
      assert cs[i] == last[i - 1 - |middle|];
    }
  }

  /** Without the shortcut, the main query's clause is the only MUST clause. */
  lemma ComposedSingleRequiredClause(queries: LuceneQueries)
    requires !ShortCircuits(queries)
    ensures forall i :: 0 < i < |Composed(queries).clauses| ==> Composed(queries).clauses[i].occur != Must
  {
    ComposedLayout(queries);
    var boosts := queries.boostQueries.GetOr([]);
    var r := Composed(queries);
    forall i | 0 < i < |r.clauses| ensures r.clauses[i].occur != Must {
      if i < 1 + |boosts| {
        assert r.clauses[1 + (i - 1)] == Clause(Should, boosts[i - 1]);
      }
    }
  }

  /** A null or empty filter list adds no clause. */
  lemma NoFiltersNoClauses(queries: LuceneQueries)
    requires NullOrEmpty(queries.filterQueries)
    ensures AppendedFilterClauses(queries) == []
  {
  }

  /** A filter that is not a boolean query adds exactly one FILTER clause. */
  lemma NonBooleanFilterIsOneFilterClause(filter: Query)
    requires !filter.BooleanQuery?
    ensures FilterContribution(filter) == [Clause(Filter, filter)]
  {
  }

  /** An unpackable boolean filter adds its own clauses, in order, MUST_NOT
      kept and everything else turned into FILTER. */
  lemma UnpackedFilterClauses(filter: Query)
    requires filter.BooleanQuery? && Unpackable(filter)
    ensures var r := FilterContribution(filter);
      && |r| == |filter.clauses|
      && forall i :: 0 <= i < |r| ==>
           && r[i].query == filter.clauses[i].query
           && (r[i].occur == MustNot <==> filter.clauses[i].occur == MustNot)
           && (r[i].occur != MustNot ==> r[i].occur == Filter)
  {
  }

  /** A boolean filter without clauses adds nothing at all. */
  lemma EmptyBooleanFilterAddsNothing(mm: int)
    ensures FilterContribution(BooleanQuery([], mm)) == []
  {
  }

  /** Any other boolean filter is nested whole as one FILTER clause. */
  lemma DisjunctiveFilterKeptWhole(filter: Query)
    requires filter.BooleanQuery? && !Unpackable(filter)
    ensures FilterContribution(filter) == [Clause(Filter, filter)]
  {
  }

  /** A purely negative filter (one MUST_NOT clause over a DisMax query)
      becomes a MUST_NOT clause of the outer query. */
  lemma AllNegativeFilterExample()
    ensures var dismax := DisMaxQuery([TermQuery("f1", "filter_a"), TermQuery("f2", "filter_a")], FLOAT_ONE);
      FilterClauses([BooleanQuery([Clause(MustNot, dismax)], 0)]) == [Clause(MustNot, dismax)]
  {
    var dismax := DisMaxQuery([TermQuery("f1", "filter_a"), TermQuery("f2", "filter_a")], FLOAT_ONE);
    assert [BooleanQuery([Clause(MustNot, dismax)], 0)][..0] == [];
  }
}
