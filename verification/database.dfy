/**
 The property search of LightBnB_WebApp/db/database.js: `getAllProperties`
 turns a record of optional search filters and a row limit into a
 parameterised SQL statement and its list of bind values, and `clauseToggle`
 chooses the keyword of each filter clause.

 `GetAllProperties` builds the pair step by step as the source does, pushing
 onto the parameter list and appending a clause record in five guarded blocks;
 the records are rendered to text once, at the end.
 It is proved against `SearchParams` and `SearchQuery`, which say directly
 which filters are active, in which order, with which keyword, placeholder
 and value; the lemmas below state what the builder promises in terms of
 those.
 */
module Database {
  import opened Wrappers
  import opened QueryText

  /** A bind value: the source pushes strings and numbers. */
  datatype Param = Str(s: string) | Num(n: int)

  /** The `options` object; a missing property is `None` (`undefined`). */
  datatype Options = Options(
    city: Option<string>,
    ownerId: Option<int>,
    minimumPricePerNight: Option<int>,
    maximumPricePerNight: Option<int>,
    minimumRating: Option<int>)

  /** JavaScript truthiness of a string property: `undefined` and `""` are falsy. */
  predicate TruthyText(v: Option<string>)
  {
    v.Some? && v.value != ""
  }

  /** JavaScript truthiness of a number property: `undefined` and `0` are falsy. */
  predicate TruthyNumber(v: Option<int>)
  {
    v.Some? && v.value != 0
  }

  /** The default of the `limit` argument. */
  const DefaultLimit: int := 10

  function LimitOrDefault(limit: Option<int>): int
  {
    if limit.Some? then limit.value else DefaultLimit
  }

  /** `clauseToggle`: the first filter clause opens with WHERE, every other one with AND. */
  function ClauseToggle(params: seq<Param>): (k: Keyword)
    ensures k == Where <==> |params| == 1
    ensures k == And <==> |params| != 1
  {
    if |params| == 1 then Where else And
  }

  // ---------------------------------------------------------------------
  // The filters, and which of them a given options record activates

  datatype FilterKind =
    | CityFilter
    | OwnerFilter
    | MinimumPriceFilter
    | MaximumPriceFilter
    | MinimumRatingFilter

  /** The position of a filter in the order the source tests them. */
  function Rank(k: FilterKind): nat
  {
    match k
    case CityFilter => 0
    case OwnerFilter => 1
    case MinimumPriceFilter => 2
    case MaximumPriceFilter => 3
    case MinimumRatingFilter => 4
  }

  /** A filter is applied when its options property is truthy. */
  predicate Present(o: Options, k: FilterKind)
  {
    match k
    case CityFilter => TruthyText(o.city)
    case OwnerFilter => TruthyNumber(o.ownerId)
    case MinimumPriceFilter => TruthyNumber(o.minimumPricePerNight)
    case MaximumPriceFilter => TruthyNumber(o.maximumPricePerNight)
    case MinimumRatingFilter => TruthyNumber(o.minimumRating)
  }

  function ColumnOf(k: FilterKind): Column
  {
    match k
    case CityFilter => City
    case OwnerFilter => OwnerId
    case MinimumPriceFilter => CostPerNight
    case MaximumPriceFilter => CostPerNight
    case MinimumRatingFilter => Rating
  }

  function OperatorOf(k: FilterKind): Operator
  {
    match k
    case CityFilter => Like
    case OwnerFilter => Equal
    case MinimumPriceFilter => AtLeast
    case MaximumPriceFilter => AtMost
    case MinimumRatingFilter => AtLeast
  }

  /** The bind value of a filter: the city as a `%...%` pattern, prices in cents. */
  function Value(o: Options, k: FilterKind): Param
    requires Present(o, k)
  {
    match k
    case CityFilter => Str("%" + o.city.value + "%")
    case OwnerFilter => Num(o.ownerId.value)
    case MinimumPriceFilter => Num(o.minimumPricePerNight.value * 100)
    case MaximumPriceFilter => Num(o.maximumPricePerNight.value * 100)
    case MinimumRatingFilter => Num(o.minimumRating.value)
  }

  /** The position of a clause's (column, operator) pair in `FilterOrder`. */
  function ClauseRank(c: Clause): nat
  {
    match c.column
    case City => 0
    case OwnerId => 1
    case CostPerNight => if c.op == AtMost then 3 else 2
    case Rating => 4
  }

  datatype Filter = Filter(kind: FilterKind, value: Param)

  /** The one-element list of filter `k` when it is applied, else nothing. */
  function Piece(o: Options, k: FilterKind): seq<Filter>
  {
    if Present(o, k) then [Filter(k, Value(o, k))] else []
  }

  /** The applied filters, in the order the source tests them. */
  function SearchFilters(o: Options): seq<Filter>
  {
    Piece(o, CityFilter) + Piece(o, OwnerFilter) + Piece(o, MinimumPriceFilter)
      + Piece(o, MaximumPriceFilter) + Piece(o, MinimumRatingFilter)
  }

  /** The number of truthy filter properties. */
  function TruthyCount(o: Options): nat
  {
    (if TruthyText(o.city) then 1 else 0)
    + (if TruthyNumber(o.ownerId) then 1 else 0)
    + (if TruthyNumber(o.minimumPricePerNight) then 1 else 0)
    + (if TruthyNumber(o.maximumPricePerNight) then 1 else 0)
    + (if TruthyNumber(o.minimumRating) then 1 else 0)
  }

  // ---------------------------------------------------------------------
  // The statement the builder should produce, stated by position

  /** One clause per filter, in order: clause `i` opens with WHERE only when it
      is the first, and refers to placeholder `$(i+1)`. */
  function ClausesFor(fs: seq<Filter>): seq<Clause>
  {
    seq(|fs|, i requires 0 <= i < |fs| =>
      Clause(if i == 0 then Where else And, ColumnOf(fs[i].kind), OperatorOf(fs[i].kind), i + 1))
  }

  function ValuesOf(fs: seq<Filter>): seq<Param>
  {
    seq(|fs|, i requires 0 <= i < |fs| => fs[i].value)
  }

  /** The bind values: one per applied filter, then the limit. */
  function SearchParams(o: Options, limit: Option<int>): seq<Param>
  {
    ValuesOf(SearchFilters(o)) + [Num(LimitOrDefault(limit))]
  }

  /** The statement: one clause per applied filter; `LIMIT` takes the last placeholder. */
  function SearchQuery(o: Options): Query
  {
    Query(ClausesFor(SearchFilters(o)), |SearchFilters(o)| + 1)
  }

  /** The words the source writes after the keyword of a filter clause,
      up to the placeholder number. */
  function ClauseMiddle(k: FilterKind): string
  {
    match k
    case CityFilter => " city LIKE $"
    case OwnerFilter => " owner_id = $"
    case MinimumPriceFilter => " cost_per_night >= $"
    case MaximumPriceFilter => " cost_per_night <= $"
    case MinimumRatingFilter => " rating >= $"
  }

  /** The words between the keyword and the placeholder number, as the source spells them. */
  lemma MiddleSpelling(k: FilterKind)
    ensures " " + ColumnText(ColumnOf(k)) + " " + OperatorText(OperatorOf(k)) + " " + "$" == ClauseMiddle(k)
  {
    match k {
      case CityFilter =>
        assert " " + "city" + " " + "LIKE" + " " + "$" == " city LIKE $";
      case OwnerFilter =>
        assert " " + "owner_id" + " " + "=" + " " + "$" == " owner_id = $";
      case MinimumPriceFilter =>
        assert " " + "cost_per_night" + " " + ">=" + " " + "$" == " cost_per_night >= $";
      case MaximumPriceFilter =>
        assert " " + "cost_per_night" + " " + "<=" + " " + "$" == " cost_per_night <= $";
      case MinimumRatingFilter =>
        assert " " + "rating" + " " + ">=" + " " + "$" == " rating >= $";
    }
  }

  /** A filter clause as the source spells it. */
  lemma ClauseSpelling(c: Clause, k: FilterKind)
    requires c.column == ColumnOf(k) && c.op == OperatorOf(k)
    ensures RenderClause(c) == KeywordText(c.keyword) + ClauseMiddle(k) + Decimal(c.placeholder) + " "
  {
    var kw, d := KeywordText(c.keyword), Decimal(c.placeholder);
    var col, op := ColumnText(c.column), OperatorText(c.op);
    assert RenderClause(c) == kw + (" " + col + " " + op + " " + "$") + d + " ";
    MiddleSpelling(k);
  }

  /** Applying one more filter: the bind values gain its value and the clause
      records gain a clause for it, opened by `ClauseToggle` and numbered by
      the new length of the bind values. */
  lemma Push(fs: seq<Filter>, f: Filter, params: seq<Param>, clauses: seq<Clause>)
    requires params == ValuesOf(fs) && clauses == ClausesFor(fs)
    ensures var params' := params + [f.value];
      params' == ValuesOf(fs + [f])
      && clauses + [Clause(ClauseToggle(params'), ColumnOf(f.kind), OperatorOf(f.kind), |params'|)] == ClausesFor(fs + [f])
  {
    assert ValuesOf(fs + [f]) == params + [f.value];
  }

  /** After the five filter blocks: pushing the limit gives `SearchParams`, and
      the clauses with `LIMIT` on the last placeholder give `SearchQuery`. */
  lemma Finish(o: Options, limit: Option<int>, fs: seq<Filter>, params: seq<Param>, clauses: seq<Clause>)
    requires fs == SearchFilters(o) && params == ValuesOf(fs) && clauses == ClausesFor(fs)
    ensures params + [Num(LimitOrDefault(limit))] == SearchParams(o, limit)
    ensures Query(clauses, |params| + 1) == SearchQuery(o)
  {
  }

  // ---------------------------------------------------------------------
  // The builder

  /** `getAllProperties` up to the `db.query` call: the statement text and the bind
      values. The text is kept as clause records, rendered once at the end. */
  method GetAllProperties(options: Options, limit: Option<int>) returns (text: string, params: seq<Param>)
    ensures params == SearchParams(options, limit)
    ensures text == RenderQuery(SearchQuery(options))
  {
    params := [];
    var clauses: seq<Clause> := [];  // the filter clauses appended to `query`
    ghost var fs: seq<Filter> := [];  // the filters applied so far

    if TruthyText(options.city) {
      var f := Filter(CityFilter, Str("%" + options.city.value + "%"));
      Push(fs, f, params, clauses);
      params := params + [f.value];
      clauses := clauses + [Clause(ClauseToggle(params), City, Like, |params|)];
      fs := fs + [f];
    }
    assert fs == Piece(options, CityFilter);

    ghost var before := fs;
    if TruthyNumber(options.ownerId) {
      var f := Filter(OwnerFilter, Num(options.ownerId.value));
      Push(fs, f, params, clauses);
      params := params + [f.value];
      clauses := clauses + [Clause(ClauseToggle(params), OwnerId, Equal, |params|)];
      fs := fs + [f];
    }
    assert fs == before + Piece(options, OwnerFilter);

    before := fs;
    if TruthyNumber(options.minimumPricePerNight) {
      var f := Filter(MinimumPriceFilter, Num(options.minimumPricePerNight.value * 100));
      Push(fs, f, params, clauses);
      params := params + [f.value];
      clauses := clauses + [Clause(ClauseToggle(params), CostPerNight, AtLeast, |params|)];
      fs := fs + [f];
    }
    assert fs == before + Piece(options, MinimumPriceFilter);

    before := fs;
    if TruthyNumber(options.maximumPricePerNight) {
      var f := Filter(MaximumPriceFilter, Num(options.maximumPricePerNight.value * 100));
      Push(fs, f, params, clauses);
      params := params + [f.value];
      clauses := clauses + [Clause(ClauseToggle(params), CostPerNight, AtMost, |params|)];
      fs := fs + [f];
    }
    assert fs == before + Piece(options, MaximumPriceFilter);

    before := fs;
    if TruthyNumber(options.minimumRating) {
      var f := Filter(MinimumRatingFilter, Num(options.minimumRating.value));
      Push(fs, f, params, clauses);
      params := params + [f.value];
      clauses := clauses + [Clause(ClauseToggle(params), Rating, AtLeast, |params|)];
      fs := fs + [f];
    }
    assert fs == before + Piece(options, MinimumRatingFilter);

    Finish(options, limit, fs, params, clauses);
    params := params + [Num(LimitOrDefault(limit))];
    assert Query(clauses, |params|) == SearchQuery(options);
    text := RenderQuery(Query(clauses, |params|));
  }
}
