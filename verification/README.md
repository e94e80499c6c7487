# LightBnB property search: the filtered query builder

LightBnB's data-access layer (`LightBnB_WebApp/db/database.js`) runs parameterised SQL
against the LightBnB database. Its one piece of real logic is `getAllProperties`. That
function takes an `options` object with up to five optional search filters (city, owner,
minimum and maximum price per night, minimum rating) and a row `limit`. It builds one
`SELECT` statement and its list of bind values. For each filter that is set, it pushes a
bind value onto `queryParams` and appends a clause to `query`. The helper `clauseToggle`
picks the clause's opening keyword: `WHERE` when the value just pushed is the first one,
`AND` otherwise. After the filters it pushes the limit and appends
`GROUP BY … ORDER BY cost_per_night LIMIT $n`.

The model has three modules besides `Wrappers` (`wrappers.dfy`, the `Option` type):

- `QueryText` (`query_text.dfy`) describes the statement as records. A clause is a
  keyword, a column, an operator and a placeholder number. `RenderQuery` gives the exact
  characters the source concatenates. `ParseQuery` reads them back, and the round-trip
  lemma shows that the text determines the records. So a fact proved about the records
  is a fact about the text.
- `Database` (`database.dfy`) covers the following:
  - the `options` record, with JavaScript truthiness written out;
  - `ClauseToggle`;
  - the builder method `GetAllProperties`, which has the source's five guarded blocks,
    each of which pushes onto the bind values and appends a clause;
  - the two functions the method is proved against. `SearchParams` gives the bind values
    and `SearchQuery` gives the statement. Both say directly which filters apply, in
    which order, with which keyword, placeholder and value.
- `SearchProperties` (`search_properties.dfy`) proves, about those two functions, what
  the builder promises:
  - the number of bind values;
  - exactly one `WHERE`;
  - placeholders `$1..$n` bound to the right values;
  - the fixed clause order;
  - the per-filter value transforms;
  - the statement when no filter is set;
  - a worked example.

A filter is applied when its `options` property is truthy. A missing property, an empty
string and the number `0` are all falsy, and those filters are skipped. Numbers are
modelled as integers.

## Model

| member | source | states |
|---|---|---|
| `Database.ClauseToggle` | LightBnB_WebApp/db/database.js:101-106 | the keyword is `WHERE` exactly when the parameter list has length 1, and `AND` exactly when it does not |
| `Database.GetAllProperties` | LightBnB_WebApp/db/database.js:114-153 | the five guarded push-and-append blocks, then the limit push and the trailing clause, return the bind values `SearchParams(options, limit)` and the text of `SearchQuery(options)` |
| `Database.Push` | LightBnB_WebApp/db/database.js:123-146 | one filter block keeps the bind values and clause records in step with the applied filters: the value is appended, and the new clause's keyword comes from `clauseToggle` on the new list and its placeholder is the new length |
| `Database.Finish` | LightBnB_WebApp/db/database.js:148-153 | pushing the limit after the filter values gives `SearchParams`, and `LIMIT` takes placeholder `$<length>`, giving `SearchQuery` |
| `Database.MiddleSpelling` | LightBnB_WebApp/db/database.js:125-145 | the column and operator words of each filter, joined by spaces and followed by `$`, are the exact text the source writes (` city LIKE $`, ` owner_id = $`, ` cost_per_night >= $`, ` cost_per_night <= $`, ` rating >= $`) |
| `Database.ClauseSpelling` | LightBnB_WebApp/db/database.js:125-145 | the text of a clause record is the keyword, the source's words for its filter, the placeholder number and one space, as each `query +=` template writes it |
| `QueryText.RenderClausesSnoc` | LightBnB_WebApp/db/database.js:123-146 | appending a clause record appends its text to the statement, so the records rendered once match the source's successive `query +=` |
| `QueryText.Decimal` | LightBnB_WebApp/db/database.js:125 | the placeholder number is written as a non-empty run of decimal digits |
| `QueryText.DecimalRoundTrip` | LightBnB_WebApp/db/database.js:125 | the digits written for a placeholder number read back as that number |
| `QueryText.ClausesRoundTrip` | LightBnB_WebApp/db/database.js:123-146 | the text of any list of filter clauses parses back to that list |
| `QueryText.QueryRoundTrip` | LightBnB_WebApp/db/database.js:116-153 | the full statement text (head, clauses, `GROUP BY … LIMIT $n;`) parses back to the statement record: the text fixes every keyword, column, operator and placeholder |
| `SearchProperties.SearchFiltersMembers` | LightBnB_WebApp/db/database.js:123-146 | a filter is applied exactly when its `options` property is truthy, and every applied filter carries the value its block pushes |
| `SearchProperties.SearchFiltersAscending` | LightBnB_WebApp/db/database.js:123-146 | the applied filters are in strictly increasing order: city, owner, minimum price, maximum price, rating |
| `SearchProperties.SearchFiltersCount` | LightBnB_WebApp/db/database.js:123-146 | one applied filter per truthy filter property |
| `SearchProperties.ParamCount` | LightBnB_WebApp/db/database.js:123-148 | there is one bind value per truthy filter plus one for the limit, and one clause per truthy filter |
| `SearchProperties.Placeholders` | LightBnB_WebApp/db/database.js:123-153 | clause `i` uses `$(i+1)`, which refers to the `i`-th applied filter's value; `LIMIT` uses `$<length>`, which refers to the last bind value, the limit, which is 10 when none is given |
| `SearchProperties.OneTo` | LightBnB_WebApp/db/database.js:125 | the list 1..n has length n and holds `i+1` at index `i` |
| `SearchProperties.PlaceholdersContiguous` | LightBnB_WebApp/db/database.js:123-153 | the placeholders, in text order, are exactly `$1, $2, …, $n` for `n` bind values: contiguous and increasing |
| `SearchProperties.AllAnd` | LightBnB_WebApp/db/database.js:101-106 | clauses that all open with `AND` hold no `WHERE` |
| `SearchProperties.OneWhere` | LightBnB_WebApp/db/database.js:101-146 | a clause opens with `WHERE` exactly when it is the first; the statement holds one `WHERE` when some filter applies and none otherwise, and `AND` opens the remaining clauses |
| `SearchProperties.ClauseOrder` | LightBnB_WebApp/db/database.js:123-146 | the clauses appear in the order city, owner_id, minimum price, maximum price, minimum rating, whatever subset is set |
| `SearchProperties.FilterClause` | LightBnB_WebApp/db/database.js:123-146 | for each filter, in both directions: there is a clause with its column and operator exactly when its property is truthy, and that clause's placeholder refers to the transformed value (`%city%`, price times 100, or the owner id or rating unchanged) |
| `SearchProperties.KindOfClause` | LightBnB_WebApp/db/database.js:125-145 | no two filters write the same column and operator |
| `SearchProperties.CityFirst` | LightBnB_WebApp/db/database.js:123-126 | a truthy city makes the first clause `WHERE city LIKE $1`, bound to `%city%` |
| `SearchProperties.PricesInCents` | LightBnB_WebApp/db/database.js:133-141 | every `cost_per_night` clause is `>=` with the minimum price times 100 or `<=` with the maximum price times 100 |
| `SearchProperties.NoFilters` | LightBnB_WebApp/db/database.js:114-153 | with no truthy filter the bind values are just the limit, there are no clauses (so no `WHERE` or `AND`), and the text is the head followed by `… LIMIT $1;` |
| `SearchProperties.VancouverSearch` | LightBnB_WebApp/db/database.js:114-148 | for city `Vancouver`, rating 4 and no limit, the bind values are `%Vancouver%`, 4, 10 and the clauses are `WHERE city LIKE $1`, `AND rating >= $2` |
| `SearchProperties.VancouverClausesText` | LightBnB_WebApp/db/database.js:123-146 | those two clauses render as `WHERE city LIKE $1 AND rating >= $2 ` |
| `SearchProperties.VancouverExample` | LightBnB_WebApp/db/database.js:114-153 | the full text of that search ends in `LIMIT $3;` |

## Left out

- The `db.query(...).then(...).catch(...)` call, the returned promise and the `console.log`
  of errors (`database.js`, lines 155-161) are I/O. The model stops at the text and bind values
  that are handed to `db.query`.
- The connection pool in `LightBnB_WebApp/db/index.js` is not part of this model.
- The other query functions of `database.js` (users, reservations, adding a property)
  are fixed statements with fixed parameter lists, and they are not part of this model.
- What the database does with the statement (SQL semantics, the `avg` aggregate, the
  ordering of rows) is not modelled.
- JavaScript numbers are modelled as unbounded integers, which leaves out:
  - prices as fractions, where `* 100` is floating point;
  - `NaN`;
  - numeric strings from a query string;
  - a `null` limit, which the default parameter does not replace.

  The model captures none of these four cases: fractional prices, `NaN`, string-typed
  numbers and a `null` limit.
- `options` is always an object whose filter properties are strings or integers. Two
  things are not modelled:
  - A missing or `null` `options` makes `options.city` (`database.js`, line 123) throw a
    TypeError before any promise exists, so the `.catch` never sees it.
  - Other JavaScript value types are not modelled. A boolean `owner_id` would be pushed
    unchanged, and an array `city` would be joined into `%a,b%`.
- `Database.GetAllProperties`: the method keeps the appended clauses as records and
  renders the text once at the end instead of extending a string in each block. The
  per-block `query +=` form is related to it by `ClauseSpelling` (the text of one block)
  and `RenderClausesSnoc` (appending a record appends its text), but the method itself
  does not update a string in place.
- A filter is applied on JavaScript truthiness, as the code tests it, and not on mere
  presence. So a property set to `""` or `0` is skipped like a missing one. The model
  follows the code.
