/** Why offset paging is complete: the emitted ORDER BY is a strict total order when the
    tiebreak columns form a key, a result has then only one order whatever the plan, and
    following the pages until a short one collects every row once, in that order. */
module Paging {
  import opened Wrappers
  import opened Sql
  import opened Catalog
  import opened Select
  import opened SelectMeaning
  import opened Tail

  /** How a column's type orders its values: a strict order that may tie different texts, as
      NUMERIC ties 1.1 and 1.10. */
  type ValueOrder = (string, string, string) -> bool

  ghost predicate IsValueOrder(less: ValueOrder) {
    && (forall col, a {:trigger less(col, a, a)} :: !less(col, a, a))
    && (forall col, a, b, c {:trigger less(col, a, b), less(col, b, c)} :: less(col, a, b) && less(col, b, c) ==>
          less(col, a, c))
    && (forall col, a, b, c {:trigger less(col, a, c), less(col, a, b)} {:trigger less(col, a, c), less(col, b, c)} ::
          less(col, a, c) ==> less(col, a, b) || less(col, b, c))
  }

  /** Ascending, with NULL after every value; descending is the reverse. */
  predicate CellLess(less: ValueOrder, col: string, a: Option<string>, b: Option<string>) {
    match (a, b)
    case (None, _) => false
    case (Some(_), None) => true
    case (Some(x), Some(y)) => less(col, x, y)
  }

  /** The column's type does not tell the cells apart. */
  predicate Tied(less: ValueOrder, col: string, a: Option<string>, b: Option<string>) {
    !CellLess(less, col, a, b) && !CellLess(less, col, b, a)
  }

  predicate TermLess(less: ValueOrder, t: Order, r: Row, s: Row) {
    if t.desc then CellLess(less, t.col, Cell(s, t.col), Cell(r, t.col))
    else CellLess(less, t.col, Cell(r, t.col), Cell(s, t.col))
  }

  /** ORDER BY: the first term that tells the rows apart decides. */
  predicate RowLess(less: ValueOrder, terms: seq<Order>, r: Row, s: Row) {
    terms != [] &&
    (TermLess(less, terms[0], r, s) || (!TermLess(less, terms[0], s, r) && RowLess(less, terms[1..], r, s)))
  }

  lemma {:induction false} RowLessIsStrict(less: ValueOrder, terms: seq<Order>, r: Row, s: Row)
    requires IsValueOrder(less)
    ensures !RowLess(less, terms, r, r)
    ensures !(RowLess(less, terms, r, s) && RowLess(less, terms, s, r))
  {
    if terms != [] {
      RowLessIsStrict(less, terms[1..], r, s);
    }
  }

  lemma {:induction false} RowLessIsTransitive(less: ValueOrder, terms: seq<Order>, r: Row, s: Row, u: Row)
    requires IsValueOrder(less) && RowLess(less, terms, r, s) && RowLess(less, terms, s, u)
    ensures RowLess(less, terms, r, u)
  {
    var t := terms[0];
    if !TermLess(less, t, r, s) && !TermLess(less, t, s, u) { RowLessIsTransitive(less, terms[1..], r, s, u); }
  }

  /** Rows that an ordered column tells apart are ordered one way or the other. */
  lemma {:induction false} RowLessIsTotal(less: ValueOrder, terms: seq<Order>, r: Row, s: Row, col: string)
    requires IsValueOrder(less) && HasTerm(terms, col) && !Tied(less, col, Cell(r, col), Cell(s, col))
    ensures RowLess(less, terms, r, s) || RowLess(less, terms, s, r)
  {
    var t := terms[0];
    if !TermLess(less, t, r, s) && !TermLess(less, t, s, r) {
      var k :| 0 <= k < |terms| && terms[k].col == col;
      assert terms[1..][k - 1].col == col;
      RowLessIsTotal(less, terms[1..], r, s, col);
    }
  }

  /** A tiebreak column tells different rows apart. */
  ghost predicate IsKey(less: ValueOrder, cols: seq<string>, rows: seq<Row>) {
    forall r, s :: r in rows && s in rows && r != s ==>
      exists k :: 0 <= k < |cols| && !Tied(less, cols[k], Cell(r, cols[k]), Cell(s, cols[k]))
  }

  /** On rows the tiebreak tells apart, the emitted ORDER BY is a strict total order. */
  lemma OrderByIsTotal(less: ValueOrder, rel: Relation, p: Request, rows: seq<Row>, r: Row, s: Row)
    requires IsValueOrder(less) && IsKey(less, rel.tiebreak, rows) && r in rows && s in rows
    ensures r != s <==> RowLess(less, OrderTerms(rel, p), r, s) || RowLess(less, OrderTerms(rel, p), s, r)
    ensures !(RowLess(less, OrderTerms(rel, p), r, s) && RowLess(less, OrderTerms(rel, p), s, r))
  {
    RowLessIsStrict(less, OrderTerms(rel, p), r, s);
    if r != s {
      var k :| 0 <= k < |rel.tiebreak|
        && !Tied(less, rel.tiebreak[k], Cell(r, rel.tiebreak[k]), Cell(s, rel.tiebreak[k]));
      TiebreakIsOrdered(BaseTerms(rel, p), rel.tiebreak, |rel.tiebreak|);
      RowLessIsTotal(less, OrderTerms(rel, p), r, s, rel.tiebreak[k]);
    }
  }

  // ---------------------------------------------------------------- one order only

  /** No row comes before one it should follow. */
  ghost predicate Sorted(less: ValueOrder, terms: seq<Order>, rows: seq<Row>) {
    forall i, j :: 0 <= i < j < |rows| ==> !RowLess(less, terms, rows[j], rows[i])
  }

  ghost predicate StrictlySorted(less: ValueOrder, terms: seq<Order>, rows: seq<Row>) {
    forall i, j :: 0 <= i < j < |rows| ==> RowLess(less, terms, rows[i], rows[j])
  }

  /** A result a SELECT over these rows may return, before its limit and offset. */
  ghost predicate IsPlan(less: ValueOrder, terms: seq<Order>, rows: seq<Row>, plan: seq<Row>) {
    multiset(plan) == multiset(rows) && Sorted(less, terms, plan)
  }

  lemma {:induction false} CountedOnce(rows: seq<Row>)
    requires Distinct(rows)
    ensures forall r :: r in rows ==> multiset(rows)[r] == 1
  {
    if rows != [] {
      var init, last := rows[..|rows| - 1], rows[|rows| - 1];
      assert rows == init + [last];
      assert forall k :: 0 <= k < |init| ==> rows[k] == init[k];
      CountedOnce(init);
      assert last !in init;
    }
  }

  lemma {:induction false} OnceIsDistinct(rows: seq<Row>)
    requires forall r :: r in rows ==> multiset(rows)[r] == 1
    ensures Distinct(rows)
  {
    if rows != [] {
      var init, last := rows[..|rows| - 1], rows[|rows| - 1];
      assert rows == init + [last];
      assert forall r :: r in init ==>
        multiset(init)[r] >= 1 && multiset(rows)[r] == multiset(init)[r] + if r == last then 1 else 0;
      OnceIsDistinct(init);
    }
  }

  lemma PlanIsStrict(less: ValueOrder, rel: Relation, p: Request, rows: seq<Row>, plan: seq<Row>)
    requires IsValueOrder(less) && IsKey(less, rel.tiebreak, rows) && Distinct(rows)
    requires IsPlan(less, OrderTerms(rel, p), rows, plan)
    ensures StrictlySorted(less, OrderTerms(rel, p), plan) && |plan| == |rows|
  {
    CountedOnce(rows);
    assert forall r :: r in plan <==> r in multiset(plan);
    assert forall r :: r in rows <==> r in multiset(rows);
    OnceIsDistinct(plan);
    assert |plan| == |multiset(plan)| == |multiset(rows)| == |rows|;
    forall i, j | 0 <= i < j < |plan| ensures RowLess(less, OrderTerms(rel, p), plan[i], plan[j]) {
      assert plan[i] in plan && plan[j] in plan && plan[i] != plan[j];
      OrderByIsTotal(less, rel, p, rows, plan[i], plan[j]);
    }
  }

  lemma TailOf(less: ValueOrder, terms: seq<Order>, a: seq<Row>)
    requires a != [] && StrictlySorted(less, terms, a)
    ensures a == [a[0]] + a[1..] && multiset(a[1..]) == multiset(a) - multiset{a[0]}
    ensures StrictlySorted(less, terms, a[1..])
  {
    assert a == [a[0]] + a[1..];
  }

  /** Two strictly sorted arrangements of the same rows are the same. */
  lemma {:induction false} SortedIsUnique(less: ValueOrder, terms: seq<Order>, a: seq<Row>, b: seq<Row>)
    requires IsValueOrder(less) && multiset(a) == multiset(b) && StrictlySorted(less, terms, a)
    requires StrictlySorted(less, terms, b)
    ensures a == b
  {
    assert |a| == |multiset(a)| == |multiset(b)| == |b|;
    if a != [] {
      FirstIsFirst(less, terms, a, b);
      TailOf(less, terms, a);
      TailOf(less, terms, b);
      SortedIsUnique(less, terms, a[1..], b[1..]);
    }
  }

  lemma FirstIsFirst(less: ValueOrder, terms: seq<Order>, a: seq<Row>, b: seq<Row>)
    requires IsValueOrder(less) && multiset(a) == multiset(b) && StrictlySorted(less, terms, a)
    requires StrictlySorted(less, terms, b)
    requires a != [] && b != []
    ensures a[0] == b[0]
  {
    assert a[0] in multiset(a) && b[0] in multiset(b);
    var i :| 0 <= i < |b| && b[i] == a[0];
    var j :| 0 <= j < |a| && a[j] == b[0];
    if i > 0 && j > 0 {
      assert RowLess(less, terms, b[0], b[i]) && RowLess(less, terms, a[0], a[j]);
      RowLessIsStrict(less, terms, a[0], b[0]);
    }
  }

  const PAGE := 1000

  function PageAt(plan: seq<Row>, limit: nat, offset: nat): seq<Row> {
    if offset >= |plan| then [] else if offset + limit >= |plan| then plan[offset..] else plan[offset..offset + limit]
  }

  // ---------------------------------------------------------------- what a statement returns

  /** The database reads the statement, picks an arrangement of the matching rows its ORDER BY
      permits, and returns the page its limit and offset cut out. */
  ghost predicate Arranges(st: Statement, table: seq<Row>, less: ValueOrder, meaning: Meaning, plan: seq<Row>,
                           page: seq<Row>) {
    match Behind(st.tokens, Env(map[], st.args, meaning))
    case None => false
    case Some(rest) =>
      match ReadTail(rest, st.args)
      case None => false
      case Some(tail) =>
        && IsPlan(less, tail.terms, Matching(table, st.tokens, rest, st.args, meaning), plan)
        && page == PageAt(plan, tail.limit, tail.offset)
  }

  ghost predicate Returns(st: Statement, table: seq<Row>, less: ValueOrder, meaning: Meaning, page: seq<Row>) {
    exists plan :: Arranges(st, table, less, meaning, plan, page)
  }

  /** The rows a request is about. */
  ghost function SelectedRows(rel: Relation, p: Request, table: seq<Row>, meaning: Meaning): seq<Row> {
    if table == [] then []
    else
      var row := table[|table| - 1];
      SelectedRows(rel, p, table[..|table| - 1], meaning) + if Selected(rel, p, row, meaning) then [row] else []
  }

  function Emitted(rel: Relation, p: Request): Statement { Statement(SelectTokens(rel, p), SelectArgs(p)) }

  lemma {:induction false} MatchingIsSelected(rel: Relation, p: Request, table: seq<Row>, meaning: Meaning)
    requires ValidRequest(p) && GoodRelation(rel)
    ensures Matching(table, SelectTokens(rel, p), AfterWhere(rel, p), SelectArgs(p), meaning)
         == SelectedRows(rel, p, table, meaning)
  {
    if table != [] {
      MatchingIsSelected(rel, p, table[..|table| - 1], meaning);
      StatementsSelect(rel, p, table[|table| - 1], meaning);
    }
  }

  /** The emitted SELECT returns a page of an arrangement of exactly the requested rows in exactly
      the requested order, with the requested limit and offset. */
  lemma EmittedReturns(rel: Relation, p: Request, table: seq<Row>, less: ValueOrder, meaning: Meaning, plan: seq<Row>,
                       page: seq<Row>)
    requires ValidRequest(p) && GoodRelation(rel)
    ensures Arranges(Emitted(rel, p), table, less, meaning, plan, page) <==>
      && IsPlan(less, OrderTerms(rel, p), SelectedRows(rel, p, table, meaning), plan)
      && page == PageAt(plan, p.limit, p.offset)
  {
    ClauseEnds(rel, p, map[], meaning);
    TailIsRead(rel, p);
    MatchingIsSelected(rel, p, table, meaning);
  }

  /** The two rows are in the order of a column: smaller first and NULL last, or the reverse. */
  predicate InOrder(less: ValueOrder, col: string, desc: bool, first: Row, second: Row) {
    var a := if desc then Cell(second, col) else Cell(first, col);
    var b := if desc then Cell(first, col) else Cell(second, col);
    b.Some? ==> a.Some? && !less(col, b.value, a.value)
  }

  lemma FirstTermSorts(less: ValueOrder, terms: seq<Order>, rows: seq<Row>)
    requires IsValueOrder(less) && terms != [] && StrictlySorted(less, terms, rows)
    ensures forall i, j :: 0 <= i < j < |rows| ==> InOrder(less, terms[0].col, terms[0].desc, rows[i], rows[j])
  {
    forall i, j | 0 <= i < j < |rows| ensures InOrder(less, terms[0].col, terms[0].desc, rows[i], rows[j]) {
      assert RowLess(less, terms, rows[i], rows[j]);
    }
  }

  // ---------------------------------------------------------------- following the pages

  type Server = nat -> Result<seq<Row>, nat>

  ghost predicate ArePages(serve: Server, whole: seq<Row>) {
    forall i: nat :: serve(i).Ok? ==> serve(i).value == PageAt(whole, PAGE, i * PAGE)
  }

  /** The paging loop, against a server whose answers are the pages of one list. */
  method FollowPages(ghost whole: seq<Row>, serve: Server) returns (r: Result<seq<Row>, nat>, requests: nat)
    requires ArePages(serve, whole)
    ensures 1 <= requests <= |whole| / PAGE + 1 && forall i :: 0 <= i < requests - 1 ==> serve(i).Ok?
    ensures if r.Ok? then r.value == whole && requests == |whole| / PAGE + 1 && serve(requests - 1).Ok?
            else serve(requests - 1) == Err(r.error)
  {
    var out: seq<Row> := [];
    ghost var offset := 0;
    requests := 0;
    while true
      invariant offset == requests * PAGE <= |whole| && out == whole[..offset]
      invariant forall i :: 0 <= i < requests ==> serve(i).Ok?
      decreases |whole| - offset
    {
      var answer := serve(requests);
      requests := requests + 1;
      if answer.Err? { return Err(answer.error), requests; }
      out := out + answer.value;
      if |answer.value| < PAGE {
        assert whole[..|whole|] == whole;
        return Ok(out), requests;
      }
      offset := offset + PAGE;
    }
  }

  /** The request for the i-th page. */
  function PageOf(p: Request, i: nat): Request { p.(limit := PAGE, offset := i * PAGE) }

  /** The tiebreak columns tell the selected rows apart. */
  ghost predicate TellsApart(less: ValueOrder, rel: Relation, p: Request, meaning: Meaning, table: seq<Row>) {
    var rows := SelectedRows(rel, p, table, meaning);
    IsKey(less, rel.tiebreak, rows) && Distinct(rows)
  }

  /** What answers the i-th request is a page its statement permits. */
  ghost predicate Serves(less: ValueOrder, rel: Relation, p: Request, meaning: Meaning, table: seq<Row>,
                         serve: Server) {
    forall i: nat :: serve(i).Ok? ==> Returns(Emitted(rel, PageOf(p, i)), table, less, meaning, serve(i).value)
  }

  /** All selected rows once, by the requested column, and in the one order of all terms. */
  ghost predicate IsAll(less: ValueOrder, rel: Relation, p: Request, meaning: Meaning, table: seq<Row>, all: seq<Row>) {
    && multiset(all) == multiset(SelectedRows(rel, p, table, meaning))
    && StrictlySorted(less, OrderTerms(rel, p), all)
    && (p.order != [] ==> forall i, j :: 0 <= i < j < |all| ==>
          InOrder(less, p.order[0].col, p.order[0].desc, all[i], all[j]))
  }

  /** getAll. The i-th request asks for the i-th page; the server compiles it, and the database
      returns a page the statement permits, or the request fails with a status. It stops after
      one request more than there are full pages, with every selected row once, ordered by the
      requested column and then to the last tiebreak, unless a request failed. */
  method GetAll(less: ValueOrder, rel: Relation, p: Request, meaning: Meaning, ghost table: seq<Row>, serve: Server)
    returns (r: Result<seq<Row>, nat>, requests: nat)
    requires ValidRequest(p) && GoodRelation(rel) && IsValueOrder(less)
    requires TellsApart(less, rel, p, meaning, table) && Serves(less, rel, p, meaning, table, serve)
    ensures 1 <= requests <= |SelectedRows(rel, p, table, meaning)| / PAGE + 1
    ensures forall i :: 0 <= i < requests - 1 ==> serve(i).Ok?
    ensures r.Ok? ==>
              && IsAll(less, rel, p, meaning, table, r.value) && serve(requests - 1).Ok?
              && requests == |SelectedRows(rel, p, table, meaning)| / PAGE + 1
    ensures r.Err? ==> serve(requests - 1) == Err(r.error)
  {
    ghost var whole := WholeOf(less, rel, p, meaning, table, serve);
    r, requests := FollowPages(whole, serve);
  }

  lemma {:induction false} SelectedAlike(rel: Relation, p: Request, i: nat, table: seq<Row>, meaning: Meaning)
    ensures SelectedRows(rel, PageOf(p, i), table, meaning) == SelectedRows(rel, p, table, meaning)
  {
    if table != [] { SelectedAlike(rel, p, i, table[..|table| - 1], meaning); }
  }

  /** All answers are pages of one list. */
  lemma WholeOf(less: ValueOrder, rel: Relation, p: Request, meaning: Meaning, table: seq<Row>, serve: Server)
    returns (whole: seq<Row>)
    requires ValidRequest(p) && GoodRelation(rel) && IsValueOrder(less)
    requires TellsApart(less, rel, p, meaning, table) && Serves(less, rel, p, meaning, table, serve)
    ensures ArePages(serve, whole)
    ensures if SomeServed(serve) then
              IsAll(less, rel, p, meaning, table, whole) && |whole| == |SelectedRows(rel, p, table, meaning)|
            else whole == []
  {
    whole := [];
    if some: nat :| serve(some).Ok? {
      whole := PlanOf(less, rel, p, meaning, table, some, serve(some).value);
      forall i: nat | serve(i).Ok? ensures serve(i).value == PageAt(whole, PAGE, i * PAGE) {
        OnePlan(less, rel, p, meaning, table, i, serve(i).value, whole);
      }
      PlanIsAll(less, rel, p, meaning, table, whole);
    }
  }

  ghost predicate SomeServed(serve: Server) { exists i: nat :: serve(i).Ok? }

  lemma OnePlan(less: ValueOrder, rel: Relation, p: Request, meaning: Meaning, table: seq<Row>, i: nat, page: seq<Row>,
                whole: seq<Row>)
    requires ValidRequest(p) && GoodRelation(rel) && IsValueOrder(less) && TellsApart(less, rel, p, meaning, table)
    requires Returns(Emitted(rel, PageOf(p, i)), table, less, meaning, page)
    requires IsPlan(less, OrderTerms(rel, p), SelectedRows(rel, p, table, meaning), whole)
    ensures page == PageAt(whole, PAGE, i * PAGE)
  {
    var plan := PlanOf(less, rel, p, meaning, table, i, page);
    SamePlan(less, rel, p, SelectedRows(rel, p, table, meaning), plan, whole);
  }

  lemma PlanIsAll(less: ValueOrder, rel: Relation, p: Request, meaning: Meaning, table: seq<Row>, plan: seq<Row>)
    requires IsValueOrder(less) && TellsApart(less, rel, p, meaning, table)
    requires IsPlan(less, OrderTerms(rel, p), SelectedRows(rel, p, table, meaning), plan)
    ensures IsAll(less, rel, p, meaning, table, plan) && |plan| == |SelectedRows(rel, p, table, meaning)|
  {
    SamePlan(less, rel, p, SelectedRows(rel, p, table, meaning), plan, plan);
    TermsAreAsked(rel, p);
    if p.order != [] { FirstTermSorts(less, OrderTerms(rel, p), plan); }
  }

  lemma PlanOf(less: ValueOrder, rel: Relation, p: Request, meaning: Meaning, table: seq<Row>, i: nat, page: seq<Row>)
    returns (plan: seq<Row>)
    requires ValidRequest(p) && GoodRelation(rel)
    requires Returns(Emitted(rel, PageOf(p, i)), table, less, meaning, page)
    ensures IsPlan(less, OrderTerms(rel, p), SelectedRows(rel, p, table, meaning), plan)
    ensures page == PageAt(plan, PAGE, i * PAGE)
  {
    plan :| Arranges(Emitted(rel, PageOf(p, i)), table, less, meaning, plan, page);
    EmittedReturns(rel, PageOf(p, i), table, less, meaning, plan, page);
    SelectedAlike(rel, p, i, table, meaning);
  }

  lemma SamePlan(less: ValueOrder, rel: Relation, p: Request, rows: seq<Row>, a: seq<Row>, b: seq<Row>)
    requires IsValueOrder(less) && IsKey(less, rel.tiebreak, rows) && Distinct(rows)
    requires IsPlan(less, OrderTerms(rel, p), rows, a) && IsPlan(less, OrderTerms(rel, p), rows, b)
    ensures a == b && |a| == |rows| && StrictlySorted(less, OrderTerms(rel, p), a)
  {
    PlanIsStrict(less, rel, p, rows, a);
    PlanIsStrict(less, rel, p, rows, b);
    SortedIsUnique(less, OrderTerms(rel, p), a, b);
  }

  /** Without a key, tied rows may change places between two pages: a row is then served twice
      and another never. */
  lemma TiesLoseRows(a: Row, b: Row, less: ValueOrder, terms: seq<Order>)
    requires a != b && !RowLess(less, terms, a, b) && !RowLess(less, terms, b, a)
    ensures IsPlan(less, terms, [a, b], [a, b]) && IsPlan(less, terms, [a, b], [b, a])
    ensures PageAt([a, b], 1, 0) + PageAt([b, a], 1, 1) == [a, a]
  {
  }
}
