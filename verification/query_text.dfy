/**
 The SQL text of the property search in LightBnB_WebApp/db/database.js,
 described as records. A filter clause is a keyword, a column, an operator
 and a positional placeholder `$n`; the statement is a fixed head, the filter
 clauses in order and a fixed tail whose `LIMIT` is itself a placeholder.
 `RenderQuery` gives the exact characters the source concatenates and
 `ParseQuery` reads them back, so that every fact proved about the records
 is a fact about the text.
 */
module QueryText {
  import opened Wrappers

  datatype Keyword = Where | And
  datatype Column = City | OwnerId | CostPerNight | Rating
  datatype Operator = Like | Equal | AtLeast | AtMost

  /** `<keyword> <column> <operator> $<placeholder> ` */
  datatype Clause = Clause(keyword: Keyword, column: Column, op: Operator, placeholder: nat)

  /** The whole statement: its filter clauses and the placeholder of `LIMIT`. */
  datatype Query = Query(clauses: seq<Clause>, limitPlaceholder: nat)

  /** The text the statement starts with, before any filter clause. */
  const Head: string :=
    "\n    SELECT properties.*, avg(property_reviews.rating) as average_rating\n    FROM properties\n    JOIN property_reviews ON properties.id = property_id\n  "

  /** The text after the filter clauses, up to the `LIMIT` placeholder number. */
  const TailStart: string := "\n" + "    GROUP BY properties.id\n    ORDER BY cost_per_night\n    LIMIT $"

  /** The text after the `LIMIT` placeholder number. */
  const TailEnd: string := ";\n  "

  // ---------------------------------------------------------------------
  // Words

  function KeywordText(k: Keyword): string
  {
    match k
    case Where => "WHERE"
    case And => "AND"
  }

  function ColumnText(c: Column): string
  {
    match c
    case City => "city"
    case OwnerId => "owner_id"
    case CostPerNight => "cost_per_night"
    case Rating => "rating"
  }

  function OperatorText(o: Operator): string
  {
    match o
    case Like => "LIKE"
    case Equal => "="
    case AtLeast => ">="
    case AtMost => "<="
  }

  function ParseKeyword(w: string): (r: Option<Keyword>)
    ensures r.Some? ==> KeywordText(r.value) == w
  {
    if w == "WHERE" then Some(Where)
    else if w == "AND" then Some(And)
    else None
  }

  function ParseColumn(w: string): (r: Option<Column>)
    ensures r.Some? ==> ColumnText(r.value) == w
  {
    if w == "city" then Some(City)
    else if w == "owner_id" then Some(OwnerId)
    else if w == "cost_per_night" then Some(CostPerNight)
    else if w == "rating" then Some(Rating)
    else None
  }

  function ParseOperator(w: string): (r: Option<Operator>)
    ensures r.Some? ==> OperatorText(r.value) == w
  {
    if w == "LIKE" then Some(Like)
    else if w == "=" then Some(Equal)
    else if w == ">=" then Some(AtLeast)
    else if w == "<=" then Some(AtMost)
    else None
  }

  // ---------------------------------------------------------------------
  // Decimal numerals, as JavaScript writes a non-negative integer into a
  // template literal

  predicate IsDigit(ch: char)
  {
    '0' <= ch <= '9'
  }

  predicate IsDigits(s: string)
  {
    forall i :: 0 <= i < |s| ==> IsDigit(s[i])
  }

  function DigitChar(d: nat): (ch: char)
    requires d < 10
    ensures IsDigit(ch) && ch as int - '0' as int == d
  {
    ('0' as int + d) as char
  }

  /** The decimal numeral of `n`, most significant digit first. */
  function Decimal(n: nat): (s: string)
    ensures |s| > 0 && IsDigits(s)
  {
    if n < 10 then [DigitChar(n)] else Decimal(n / 10) + [DigitChar(n % 10)]
  }

  /** The value of a numeral. */
  function DigitsValue(s: string): nat
    requires IsDigits(s)
  {
    if s == [] then 0
    else 10 * DigitsValue(s[..|s| - 1]) + (s[|s| - 1] as int - '0' as int)
  }

  lemma {:induction false} DecimalRoundTrip(n: nat)
    ensures DigitsValue(Decimal(n)) == n
  {
    var s := Decimal(n);
    if n >= 10 {
      DecimalRoundTrip(n / 10);
      assert s[..|s| - 1] == Decimal(n / 10);
    }
  }

  // ---------------------------------------------------------------------
  // Rendering

  /** The text one filter clause adds, trailing space included. */
  function RenderClause(c: Clause): string
  {
    KeywordText(c.keyword) + " " + ColumnText(c.column) + " " + OperatorText(c.op)
      + " " + "$" + Decimal(c.placeholder) + " "
  }

  function RenderClauses(cs: seq<Clause>): string
  {
    if cs == [] then "" else RenderClause(cs[0]) + RenderClauses(cs[1..])
  }

  /** The grouping, ordering and `LIMIT $<n>` that close the statement. */
  function Tail(n: nat): string
  {
    TailStart + Decimal(n) + TailEnd
  }

  /** The full statement text. */
  function RenderQuery(q: Query): string
  {
    Head + RenderClauses(q.clauses) + Tail(q.limitPlaceholder)
  }

  /** Appending a clause to the records appends its text to the statement. */
  lemma {:induction false} RenderClausesSnoc(cs: seq<Clause>, c: Clause)
    ensures RenderClauses(cs + [c]) == RenderClauses(cs) + RenderClause(c)
  {
    if cs == [] {
      assert [c][1..] == [];
    } else {
      assert (cs + [c])[1..] == cs[1..] + [c];
      RenderClausesSnoc(cs[1..], c);
    }
  }

  // ---------------------------------------------------------------------
  // Parsing the text back

  predicate NoChar(s: string, ch: char)
  {
    forall i :: 0 <= i < |s| ==> s[i] != ch
  }

  /** The text up to the first space, and the text after that space. */
  function SplitWord(s: string): (r: (string, string))
    ensures |r.1| <= |s|
    ensures s != [] ==> |r.1| < |s|
  {
    if s == [] then ([], [])
    else if s[0] == ' ' then ([], s[1..])
    else
      var (w, rest) := SplitWord(s[1..]);
      ([s[0]] + w, rest)
  }

  lemma {:induction false} SplitWordAt(w: string, rest: string)
    requires NoChar(w, ' ')
    ensures SplitWord(w + " " + rest) == (w, rest)
  {
    if w != [] {
      assert (w + " " + rest)[1..] == w[1..] + " " + rest;
      SplitWordAt(w[1..], rest);
      assert [w[0]] + w[1..] == w;
    }
  }

  function ParsePlaceholder(w: string): (r: Option<nat>)
  {
    if |w| >= 2 && w[0] == '$' && IsDigits(w[1..]) then Some(DigitsValue(w[1..])) else None
  }

  /** Reads a run of clauses, each four space-terminated words. */
  function ParseClauses(s: string): Option<seq<Clause>>
    decreases |s|
  {
    if s == [] then Some([])
    else
      var (w1, s1) := SplitWord(s);
      var (w2, s2) := SplitWord(s1);
      var (w3, s3) := SplitWord(s2);
      var (w4, s4) := SplitWord(s3);
      match (ParseKeyword(w1), ParseColumn(w2), ParseOperator(w3), ParsePlaceholder(w4))
      case (Some(k), Some(c), Some(o), Some(n)) =>
        (match ParseClauses(s4)
         case Some(cs) => Some([Clause(k, c, o, n)] + cs)
         case None => None)
      case _ => None
  }

  /** The index of the first line break, or the length when there is none. */
  function FirstNewline(s: string): (i: nat)
    ensures i <= |s|
  {
    if s == [] || s[0] == '\n' then 0 else 1 + FirstNewline(s[1..])
  }

  /** Reads a statement text back into its records. */
  function ParseQuery(s: string): Option<Query>
  {
    if |s| >= |Head| && s[..|Head|] == Head then
      var rest := s[|Head|..];
      var i := FirstNewline(rest);
      var tail := rest[i..];
      if |tail| > |TailStart| + |TailEnd| && tail[..|TailStart|] == TailStart
         && tail[|tail| - |TailEnd|..] == TailEnd
         && IsDigits(tail[|TailStart|..|tail| - |TailEnd|])
      then
        match ParseClauses(rest[..i])
        case Some(cs) => Some(Query(cs, DigitsValue(tail[|TailStart|..|tail| - |TailEnd|])))
        case None => None
      else None
    else None
  }

  // ---------------------------------------------------------------------
  // Round trip

  /** Neither a space nor a line break: a character that can stand inside a word. */
  predicate IsWord(w: string)
  {
    NoChar(w, ' ') && NoChar(w, '\n')
  }

  lemma NoCharAppend(a: string, b: string, ch: char)
    requires NoChar(a, ch) && NoChar(b, ch)
    ensures NoChar(a + b, ch)
  {
    forall i | 0 <= i < |a + b|
      ensures (a + b)[i] != ch
    {
      if i >= |a| { assert (a + b)[i] == b[i - |a|]; }
    }
  }

  lemma ClauseWords(c: Clause)
    ensures IsWord(KeywordText(c.keyword)) && IsWord(ColumnText(c.column))
    ensures IsWord(OperatorText(c.op)) && IsWord("$" + Decimal(c.placeholder))
  {
    match c.keyword { case Where => case And => }
    match c.column { case City => case OwnerId => case CostPerNight => case Rating => }
    match c.op { case Like => case Equal => case AtLeast => case AtMost => }
    var d := Decimal(c.placeholder);
    assert IsWord(d) by {
      assert forall i :: 0 <= i < |d| ==> IsDigit(d[i]);
    }
    assert IsWord("$");
    NoCharAppend("$", d, ' ');
    NoCharAppend("$", d, '\n');
  }

  lemma ClauseWordsRead(c: Clause)
    ensures ParseKeyword(KeywordText(c.keyword)) == Some(c.keyword)
    ensures ParseColumn(ColumnText(c.column)) == Some(c.column)
    ensures ParseOperator(OperatorText(c.op)) == Some(c.op)
    ensures ParsePlaceholder("$" + Decimal(c.placeholder)) == Some(c.placeholder)
  {
    var w := "$" + Decimal(c.placeholder);
    assert w[1..] == Decimal(c.placeholder);
    DecimalRoundTrip(c.placeholder);
  }

  /** A clause followed by more text, regrouped word by word. */
  lemma ClauseShape(c: Clause, tail: string)
    ensures RenderClause(c) + tail
      == KeywordText(c.keyword) + " " + (ColumnText(c.column) + " " + (OperatorText(c.op) + " "
         + (("$" + Decimal(c.placeholder)) + " " + tail)))
  {
  }

  /** The clause text reads back as the clause records it was made from. */
  lemma {:induction false} ClausesRoundTrip(cs: seq<Clause>)
    ensures ParseClauses(RenderClauses(cs)) == Some(cs)
  {
    if cs != [] {
      var c := cs[0];
      var k, col, op, ph := KeywordText(c.keyword), ColumnText(c.column), OperatorText(c.op),
                            "$" + Decimal(c.placeholder);
      var tail := RenderClauses(cs[1..]);
      var s3 := ph + " " + tail;
      var s2 := op + " " + s3;
      var s1 := col + " " + s2;
      ClauseShape(c, tail);
      assert RenderClauses(cs) == k + " " + s1;
      ClauseWords(c);
      SplitWordAt(k, s1);
      SplitWordAt(col, s2);
      SplitWordAt(op, s3);
      SplitWordAt(ph, tail);
      ClauseWordsRead(c);
      ClausesRoundTrip(cs[1..]);
      assert [c] + cs[1..] == cs;
    }
  }

  lemma {:induction false} ClausesHaveNoNewline(cs: seq<Clause>)
    ensures NoChar(RenderClauses(cs), '\n')
  {
    if cs != [] {
      var c := cs[0];
      var k, col, op, ph := KeywordText(c.keyword), ColumnText(c.column), OperatorText(c.op),
                            "$" + Decimal(c.placeholder);
      ClausesHaveNoNewline(cs[1..]);
      ClauseWords(c);
      assert NoChar(" ", '\n');
      NoCharAppend(k, " ", '\n');
      NoCharAppend(k + " ", col, '\n');
      NoCharAppend(k + " " + col, " ", '\n');
      NoCharAppend(k + " " + col + " ", op, '\n');
      NoCharAppend(k + " " + col + " " + op, " ", '\n');
      NoCharAppend(k + " " + col + " " + op + " ", ph, '\n');
      NoCharAppend(k + " " + col + " " + op + " " + ph, " ", '\n');
      assert RenderClause(c) == k + " " + col + " " + op + " " + ph + " ";
      NoCharAppend(RenderClause(c), RenderClauses(cs[1..]), '\n');
    }
  }

  lemma {:induction false} FirstNewlineAt(r: string, t: string)
    requires NoChar(r, '\n') && t != [] && t[0] == '\n'
    ensures FirstNewline(r + t) == |r|
  {
    if r != [] {
      assert (r + t)[1..] == r[1..] + t;
      FirstNewlineAt(r[1..], t);
    }
  }

  lemma TailShape(d: string)
    requires |d| > 0
    ensures var tail := TailStart + d + TailEnd;
      && tail[0] == '\n'
      && |tail| > |TailStart| + |TailEnd|
      && tail[..|TailStart|] == TailStart
      && tail[|tail| - |TailEnd|..] == TailEnd
      && tail[|TailStart|..|tail| - |TailEnd|] == d
  {
    var tail := TailStart + d + TailEnd;
    assert tail[0] == TailStart[0] == '\n';
  }

  lemma HeadShape(r: string, tail: string)
    ensures var s := Head + r + tail;
      |s| >= |Head| && s[..|Head|] == Head && s[|Head|..] == r + tail
  {
  }

  /** A statement text reads back as exactly the records it was made from. */
  lemma QueryRoundTrip(q: Query)
    ensures ParseQuery(RenderQuery(q)) == Some(q)
  {
    var r := RenderClauses(q.clauses);
    var d := Decimal(q.limitPlaceholder);
    var tail := Tail(q.limitPlaceholder);
    var s := RenderQuery(q);
    assert s == Head + r + tail;
    HeadShape(r, tail);
    var rest := s[|Head|..];
    assert rest == r + tail;
    TailShape(d);
    ClausesHaveNoNewline(q.clauses);
    FirstNewlineAt(r, tail);
    assert rest[..|r|] == r;
    assert rest[|r|..] == tail;
    ClausesRoundTrip(q.clauses);
    DecimalRoundTrip(q.limitPlaceholder);
  }
}
