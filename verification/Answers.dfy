/** From the text of a query to the rows of its answer: parsing, compiling, reading the emitted
    statement back and executing it, put together. */
module Answers {
  import opened Wrappers
  import opened Sql
  import opened Catalog
  import opened Grammar
  import opened Parser
  import opened Requests
  import opened Select
  import opened SelectMeaning
  import opened Paging
  import opened QueryText
  import QueryRest

  lemma {:induction false} SelectedAreAsked(q: Query, keys: seq<string>, rel: Relation, o: Options, p: Request,
                                            table: seq<Row>, meaning: Meaning, row: Row)
    requires ValidQuery(q) && Visits(q, keys) && IsParse(q, keys, rel, o, p)
    ensures row in SelectedRows(rel, p, table, meaning) <==> row in table && Asked(q, rel, row, meaning)
  {
    if table != [] {
      var last := table[|table| - 1];
      SelectedAreAsked(q, keys, rel, o, p, table[..|table| - 1], meaning, row);
      RequestSaysTheQuery(q, keys, rel, o, p, last, meaning);
      assert table == table[..|table| - 1] + [last];
    }
  }

  lemma PageRows(plan: seq<Row>, limit: nat, offset: nat, i: nat)
    requires i < |PageAt(plan, limit, offset)|
    ensures offset + i < |plan| && PageAt(plan, limit, offset)[i] == plan[offset + i] && i < limit
  {
  }

  lemma SortedByFirst(less: Paging.ValueOrder, terms: seq<Order>, plan: seq<Row>, i: nat, j: nat)
    requires IsValueOrder(less) && terms != [] && Sorted(less, terms, plan) && i < j < |plan|
    ensures InOrder(less, terms[0].col, terms[0].desc, plan[i], plan[j])
  {
    assert !RowLess(less, terms, plan[j], plan[i]);
  }

  ghost predicate RowsAsked(q: Query, rel: Relation, table: seq<Row>, meaning: Meaning, page: seq<Row>) {
    forall i :: 0 <= i < |page| ==> page[i] in table && Asked(q, rel, page[i], meaning)
  }

  ghost predicate ByColumn(less: Paging.ValueOrder, col: string, desc: bool, page: seq<Row>) {
    forall i, j :: 0 <= i < j < |page| ==> InOrder(less, col, desc, page[i], page[j])
  }

  lemma PageOfAsked(q: Query, keys: seq<string>, rel: Relation, o: Options, p: Request, table: seq<Row>,
                    meaning: Meaning, plan: seq<Row>)
    requires ValidQuery(q) && Visits(q, keys) && IsParse(q, keys, rel, o, p)
    requires multiset(plan) == multiset(SelectedRows(rel, p, table, meaning))
    ensures RowsAsked(q, rel, table, meaning, PageAt(plan, p.limit, p.offset))
  {
    var page := PageAt(plan, p.limit, p.offset);
    forall i | 0 <= i < |page| ensures page[i] in table && Asked(q, rel, page[i], meaning) {
      PageRows(plan, p.limit, p.offset, i);
      assert page[i] in multiset(plan);
      SelectedAreAsked(q, keys, rel, o, p, table, meaning, page[i]);
    }
  }

  lemma PageByColumn(less: Paging.ValueOrder, terms: seq<Order>, plan: seq<Row>, limit: nat, offset: nat)
    requires IsValueOrder(less) && terms != [] && Sorted(less, terms, plan)
    ensures ByColumn(less, terms[0].col, terms[0].desc, PageAt(plan, limit, offset))
  {
    var page := PageAt(plan, limit, offset);
    forall i, j | 0 <= i < j < |page| ensures InOrder(less, terms[0].col, terms[0].desc, page[i], page[j]) {
      PageRows(plan, limit, offset, i);
      PageRows(plan, limit, offset, j);
      SortedByFirst(less, terms, plan, offset + i, offset + j);
    }
  }

  lemma PageIsShort(plan: seq<Row>, limit: nat, offset: nat)
    ensures |PageAt(plan, limit, offset)| <= limit
  {
  }

  /** Every row of an answer is in the table and is one the query's text asks for; there are no more
      of them than the limit it names; and they come in the order it names, larger values first
      exactly if it says desc. */
  lemma AnswerIsAsked(q: Query, keys: seq<string>, rel: Relation, o: Options, p: Request, table: seq<Row>,
                      less: Paging.ValueOrder, meaning: Meaning, page: seq<Row>)
    requires ValidQuery(q) && Visits(q, keys) && IsParse(q, keys, rel, o, p) && Safe(p, rel, o)
    requires GoodRelation(rel) && IsValueOrder(less) && Returns(Emitted(rel, p), table, less, meaning, page)
    ensures |page| <= p.limit && QueryRest.LimitSays(q, "limit", o.defaultLimit, p.limit)
    ensures RowsAsked(q, rel, table, meaning, page)
    ensures "order_by" in q ==>
              ByColumn(less, q["order_by"][0], "order" in q && Folds(q["order"][0], "desc"), page)
  {
    SafeIsValid(p, rel, o);
    QueryRest.RequestIsAsked(q, keys, rel, o, p);
    var plan := PlanBehind(rel, p, table, less, meaning, page);
    PageIsShort(plan, p.limit, p.offset);
    PageOfAsked(q, keys, rel, o, p, table, meaning, plan);
    TermsAreAsked(rel, p);
    if "order_by" in q { PageByColumn(less, OrderTerms(rel, p), plan, p.limit, p.offset); }
  }

  lemma PlanBehind(rel: Relation, p: Request, table: seq<Row>, less: Paging.ValueOrder, meaning: Meaning,
                   page: seq<Row>)
    returns (plan: seq<Row>)
    requires ValidRequest(p) && GoodRelation(rel) && Returns(Emitted(rel, p), table, less, meaning, page)
    ensures IsPlan(less, OrderTerms(rel, p), SelectedRows(rel, p, table, meaning), plan)
    ensures page == PageAt(plan, p.limit, p.offset)
  {
    plan :| Arranges(Emitted(rel, p), table, less, meaning, plan, page);
    EmittedReturns(rel, p, table, less, meaning, plan, page);
  }
}
