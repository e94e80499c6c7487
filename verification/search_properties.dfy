/**
 What `getAllProperties` promises about the statement and the bind values it
 builds, stated over `SearchParams` and `SearchQuery` (which `GetAllProperties`
 is proved to return): how many bind values there are, where WHERE and AND
 go, which placeholder refers to which value, the order of the clauses, how
 each filter's value is transformed, and the statement without filters.
 */
module SearchProperties {
  import opened Wrappers
  import opened QueryText
  import opened Database

  // ---------------------------------------------------------------------
  // The applied filters

  /** The filters come in strictly increasing rank. */
  predicate Ascending(fs: seq<Filter>)
  {
    forall i, j :: 0 <= i < j < |fs| ==> Rank(fs[i].kind) < Rank(fs[j].kind)
  }

  /** Every filter in `fs` ranks below `r`. */
  predicate RanksBelow(fs: seq<Filter>, r: nat)
  {
    forall i :: 0 <= i < |fs| ==> Rank(fs[i].kind) < r
  }

  /** Appending the piece of a filter that ranks above everything so far keeps the order. */
  lemma AscendingPiece(o: Options, fs: seq<Filter>, k: FilterKind)
    requires Ascending(fs) && RanksBelow(fs, Rank(k))
    ensures Ascending(fs + Piece(o, k)) && RanksBelow(fs + Piece(o, k), Rank(k) + 1)
  {
    var gs := fs + Piece(o, k);
    forall i, j | 0 <= i < j < |gs|
      ensures Rank(gs[i].kind) < Rank(gs[j].kind)
    {
      if j >= |fs| {
        assert gs[j].kind == k;
      }
    }
  }

  /** The applied filters are in the order city, owner, minimum price, maximum price, rating. */
  lemma SearchFiltersAscending(o: Options)
    ensures Ascending(SearchFilters(o))
  {
    var p0 := Piece(o, CityFilter);
    var p1 := p0 + Piece(o, OwnerFilter);
    var p2 := p1 + Piece(o, MinimumPriceFilter);
    var p3 := p2 + Piece(o, MaximumPriceFilter);
    AscendingPiece(o, [], CityFilter);
    assert [] + p0 == p0;
    AscendingPiece(o, p0, OwnerFilter);
    AscendingPiece(o, p1, MinimumPriceFilter);
    AscendingPiece(o, p2, MaximumPriceFilter);
    AscendingPiece(o, p3, MinimumRatingFilter);
  }

  /** A filter kind is applied exactly when its options property is truthy, and
      then with the value `Value` gives it. */
  lemma SearchFiltersMembers(o: Options)
    ensures forall i :: 0 <= i < |SearchFilters(o)| ==>
      Present(o, SearchFilters(o)[i].kind) && SearchFilters(o)[i].value == Value(o, SearchFilters(o)[i].kind)
    ensures forall k :: Present(o, k) <==> exists i :: 0 <= i < |SearchFilters(o)| && SearchFilters(o)[i].kind == k
  {
    var fs := SearchFilters(o);
    forall k | Present(o, k)
      ensures exists i :: 0 <= i < |fs| && fs[i].kind == k
    {
      var f := Filter(k, Value(o, k));
      assert f in Piece(o, k);
      assert f in fs;
    }
    forall i | 0 <= i < |fs|
      ensures Present(o, fs[i].kind) && fs[i].value == Value(o, fs[i].kind)
    {
      PieceMember(o, fs, i);
    }
  }

  /** An element of the applied filters comes from its own kind's piece. */
  lemma PieceMember(o: Options, fs: seq<Filter>, i: nat)
    requires fs == SearchFilters(o) && i < |fs|
    ensures Present(o, fs[i].kind) && fs[i] == Filter(fs[i].kind, Value(o, fs[i].kind))
  {
    var f := fs[i];
    assert f in fs;
    assert f in Piece(o, CityFilter) || f in Piece(o, OwnerFilter) || f in Piece(o, MinimumPriceFilter)
      || f in Piece(o, MaximumPriceFilter) || f in Piece(o, MinimumRatingFilter);
  }

  /** One applied filter per truthy options property. */
  lemma SearchFiltersCount(o: Options)
    ensures |SearchFilters(o)| == TruthyCount(o)
  {
  }

  // ---------------------------------------------------------------------
  // Bind values and placeholders

  /** Each truthy filter adds one bind value, and the limit adds one more. */
  lemma ParamCount(o: Options, limit: Option<int>)
    ensures |SearchParams(o, limit)| == TruthyCount(o) + 1
    ensures |SearchQuery(o).clauses| == TruthyCount(o)
  {
    SearchFiltersCount(o);
  }

  /** Clause `i` uses placeholder `$(i+1)`, which refers to the value of the
      `i`-th applied filter; `LIMIT` uses the last placeholder, `$<length>`,
      which refers to the limit, 10 when none is given. */
  lemma Placeholders(o: Options, limit: Option<int>)
    ensures var q, ps := SearchQuery(o), SearchParams(o, limit);
      && q.limitPlaceholder == |ps|
      && ps[|ps| - 1] == Num(LimitOrDefault(limit))
      && (limit.None? ==> ps[|ps| - 1] == Num(10))
      && forall i :: 0 <= i < |q.clauses| ==>
           q.clauses[i].placeholder == i + 1
           && ps[q.clauses[i].placeholder - 1] == SearchFilters(o)[i].value
  {
  }

  /** The numbers 1, 2, ..., n. */
  function OneTo(n: nat): (r: seq<nat>)
    ensures |r| == n && forall i :: 0 <= i < n ==> r[i] == i + 1
  {
    if n == 0 then [] else OneTo(n - 1) + [n]
  }

  /** The placeholder numbers of a statement, in the order they appear in its text. */
  function PlaceholdersInOrder(q: Query): seq<nat>
  {
    seq(|q.clauses|, i requires 0 <= i < |q.clauses| => q.clauses[i].placeholder) + [q.limitPlaceholder]
  }

  /** The placeholders of the statement are `$1`, `$2`, ..., `$n` in this order,
      one per bind value: contiguous, increasing, none repeated or skipped. */
  lemma PlaceholdersContiguous(o: Options, limit: Option<int>)
    ensures PlaceholdersInOrder(SearchQuery(o)) == OneTo(|SearchParams(o, limit)|)
  {
    var q, ps := SearchQuery(o), SearchParams(o, limit);
    var xs, ys := PlaceholdersInOrder(q), OneTo(|ps|);
    assert |xs| == |ys|;
    forall i | 0 <= i < |xs|
      ensures xs[i] == ys[i]
    {
      if i < |q.clauses| {
        assert xs[i] == q.clauses[i].placeholder;
      }
    }
  }

  // ---------------------------------------------------------------------
  // WHERE and AND

  /** How many clauses open with keyword `k`. */
  function CountKeyword(cs: seq<Clause>, k: Keyword): nat
  {
    if cs == [] then 0 else (if cs[0].keyword == k then 1 else 0) + CountKeyword(cs[1..], k)
  }

  /** Clauses that all open with AND contain no WHERE. */
  lemma {:induction false} AllAnd(cs: seq<Clause>)
    requires forall i :: 0 <= i < |cs| ==> cs[i].keyword == And
    ensures CountKeyword(cs, Where) == 0 && CountKeyword(cs, And) == |cs|
  {
    if cs != [] {
      AllAnd(cs[1..]);
    }
  }

  /** The first clause opens with WHERE and every later one with AND: the statement
      holds exactly one WHERE when some filter applies and none otherwise. */
  lemma OneWhere(o: Options)
    ensures var cs := SearchQuery(o).clauses;
      (forall i :: 0 <= i < |cs| ==> (cs[i].keyword == Where <==> i == 0))
      && CountKeyword(cs, Where) == (if TruthyCount(o) > 0 then 1 else 0)
      && CountKeyword(cs, And) == (if TruthyCount(o) > 0 then TruthyCount(o) - 1 else 0)
  {
    var cs := SearchQuery(o).clauses;
    SearchFiltersCount(o);
    if cs != [] {
      AllAnd(cs[1..]);
    }
  }

  // ---------------------------------------------------------------------
  // Order of the clauses

  /** A clause's rank is that of the filter it was made for. */
  lemma ClauseRankOf(fs: seq<Filter>, i: nat)
    requires i < |fs|
    ensures ClauseRank(ClausesFor(fs)[i]) == Rank(fs[i].kind)
  {
    match fs[i].kind
    case CityFilter =>
    case OwnerFilter =>
    case MinimumPriceFilter =>
    case MaximumPriceFilter =>
    case MinimumRatingFilter =>
  }

  /** The clauses follow the source's fixed order: city, owner_id, minimum
      price, maximum price, minimum rating. */
  lemma ClauseOrder(o: Options)
    ensures var cs := SearchQuery(o).clauses;
      forall i, j :: 0 <= i < j < |cs| ==> ClauseRank(cs[i]) < ClauseRank(cs[j])
  {
    var fs := SearchFilters(o);
    var cs := SearchQuery(o).clauses;
    SearchFiltersAscending(o);
    forall i, j | 0 <= i < j < |cs|
      ensures ClauseRank(cs[i]) < ClauseRank(cs[j])
    {
      ClauseRankOf(fs, i);
      ClauseRankOf(fs, j);
    }
  }

  // ---------------------------------------------------------------------
  // The clause of each filter and its value

  /** Filter `k` gives a clause on its column with its operator exactly when its
      options property is truthy, and then the clause's placeholder refers to
      the transformed value (`%city%`, price times 100, or the value itself). */
  lemma FilterClause(o: Options, limit: Option<int>, k: FilterKind)
    ensures var cs, ps := SearchQuery(o).clauses, SearchParams(o, limit);
      Present(o, k) <==>
        exists i :: 0 <= i < |cs| && cs[i].column == ColumnOf(k) && cs[i].op == OperatorOf(k)
                    && ps[cs[i].placeholder - 1] == Value(o, k)
  {
    var fs := SearchFilters(o);
    var cs, ps := SearchQuery(o).clauses, SearchParams(o, limit);
    SearchFiltersMembers(o);
    if Present(o, k) {
      var i :| 0 <= i < |fs| && fs[i].kind == k;
      assert cs[i].column == ColumnOf(k) && cs[i].op == OperatorOf(k);
      assert ps[cs[i].placeholder - 1] == Value(o, k);
    }
    forall i | 0 <= i < |cs| && cs[i].column == ColumnOf(k) && cs[i].op == OperatorOf(k)
      ensures Present(o, k)
    {
      KindOfClause(fs[i].kind, k);
    }
  }

  /** The (column, operator) pair tells the filters apart. */
  lemma KindOfClause(k: FilterKind, k': FilterKind)
    requires ColumnOf(k) == ColumnOf(k') && OperatorOf(k) == OperatorOf(k')
    ensures k == k'
  {
  }

  /** A truthy city makes the first clause `WHERE city LIKE $1`, bound to `%city%`. */
  lemma CityFirst(o: Options, limit: Option<int>)
    requires TruthyText(o.city)
    ensures SearchQuery(o).clauses[0] == Clause(Where, City, Like, 1)
    ensures SearchParams(o, limit)[0] == Str("%" + o.city.value + "%")
  {
    assert SearchFilters(o)[0] == Filter(CityFilter, Str("%" + o.city.value + "%"));
  }

  /** The prices are bound in cents, against `cost_per_night`. */
  lemma PricesInCents(o: Options, limit: Option<int>)
    ensures var cs, ps := SearchQuery(o).clauses, SearchParams(o, limit);
      forall i :: 0 <= i < |cs| && cs[i].column == CostPerNight ==>
        (cs[i].op == AtLeast && TruthyNumber(o.minimumPricePerNight)
           && ps[i] == Num(o.minimumPricePerNight.value * 100))
        || (cs[i].op == AtMost && TruthyNumber(o.maximumPricePerNight)
           && ps[i] == Num(o.maximumPricePerNight.value * 100))
  {
    var fs := SearchFilters(o);
    SearchFiltersMembers(o);
  }

  // ---------------------------------------------------------------------
  // No filter

  /** Without a truthy filter the only bind value is the limit, there is no
      WHERE or AND clause, and the text is the head followed by `LIMIT $1`. */
  lemma NoFilters(o: Options, limit: Option<int>)
    requires TruthyCount(o) == 0
    ensures SearchParams(o, limit) == [Num(LimitOrDefault(limit))]
    ensures SearchQuery(o) == Query([], 1)
    ensures RenderQuery(SearchQuery(o)) == Head + TailStart + "1" + TailEnd
  {
    SearchFiltersCount(o);
    assert SearchFilters(o) == [];
    assert Decimal(1) == "1";
  }

  // ---------------------------------------------------------------------
  // An example

  /** A search for Vancouver with a minimum rating of 4 and no limit: the
      filters, the bind values and the clause records. */
  lemma VancouverSearch()
    ensures var o := Options(Some("Vancouver"), None, None, None, Some(4));
      && SearchParams(o, None) == [Str("%Vancouver%"), Num(4), Num(10)]
      && SearchQuery(o) == Query([Clause(Where, City, Like, 1), Clause(And, Rating, AtLeast, 2)], 3)
  {
    var o := Options(Some("Vancouver"), None, None, None, Some(4));
    assert "%" + "Vancouver" + "%" == "%Vancouver%";
    assert Piece(o, CityFilter) == [Filter(CityFilter, Str("%Vancouver%"))];
    assert Piece(o, MinimumRatingFilter) == [Filter(MinimumRatingFilter, Num(4))];
    assert SearchFilters(o) == [Filter(CityFilter, Str("%Vancouver%")), Filter(MinimumRatingFilter, Num(4))];
  }

  /** The text of the first clause of that search. */
  lemma CityClauseText()
    ensures RenderClause(Clause(Where, City, Like, 1)) == "WHERE city LIKE $1 "
  {
    ClauseSpelling(Clause(Where, City, Like, 1), CityFilter);
    assert Decimal(1) == "1";
  }

  /** The text of the second clause of that search. */
  lemma RatingClauseText()
    ensures RenderClause(Clause(And, Rating, AtLeast, 2)) == "AND rating >= $2 "
  {
    ClauseSpelling(Clause(And, Rating, AtLeast, 2), MinimumRatingFilter);
    assert Decimal(2) == "2";
  }

  /** The text of the two clauses of that search. */
  lemma VancouverClausesText()
    ensures RenderClauses([Clause(Where, City, Like, 1), Clause(And, Rating, AtLeast, 2)])
      == "WHERE city LIKE $1 AND rating >= $2 "
  {
    var c1, c2 := Clause(Where, City, Like, 1), Clause(And, Rating, AtLeast, 2);
    CityClauseText();
    RatingClauseText();
    assert RenderClauses([c2]) == RenderClause(c2) by {
      assert [c2][1..] == [];
      assert RenderClause(c2) + "" == RenderClause(c2);
    }
    assert [c1, c2][1..] == [c2];
    assert "WHERE city LIKE $1 " + "AND rating >= $2 " == "WHERE city LIKE $1 AND rating >= $2 ";
  }

  /** The statement of that search, with `LIMIT $3` bound to the default 10. */
  lemma VancouverExample()
    ensures var o := Options(Some("Vancouver"), None, None, None, Some(4));
      && SearchParams(o, None) == [Str("%Vancouver%"), Num(4), Num(10)]
      && RenderQuery(SearchQuery(o)) == Head + "WHERE city LIKE $1 AND rating >= $2 " + Tail(3)
      && Tail(3) == TailStart + "3" + TailEnd
  {
    VancouverSearch();
    VancouverClausesText();
    assert Decimal(3) == "3";
  }
}
