/** The rest of what the texts of a query string say: columns, order, page and count, and exactly
    which queries are refused. */
module QueryRest {
  import opened Wrappers
  import opened Decimal
  import opened Sql
  import opened Catalog
  import opened Grammar
  import opened Filters
  import opened Parser
  import opened Requests
  import opened QueryText

  // ---------------------------------------------------------------- the other parameters

  /** The text is this number in decimal, with or without a sign. */
  predicate Reads(v: string, n: int) {
    if HasPrefix(v, "-") then v[1..] != "" && AllDigits(v[1..]) && n == -(DigitsVal(v[1..]) as int)
    else if HasPrefix(v, "+") then v[1..] != "" && AllDigits(v[1..]) && n == DigitsVal(v[1..])
    else v != "" && AllDigits(v) && n == DigitsVal(v)
  }

  lemma AtoiReads(v: string, n: int)
    ensures Atoi(v) == Some(n) <==> Reads(v, n) && -0x8000_0000_0000_0000 <= n <= 0x7FFF_FFFF_FFFF_FFFF
  {
    assert v[0..] == v;
  }

  /** The names of a list, spaces around them apart. */
  ghost predicate Lists(v: string, names: seq<string>) {
    |names| == |Split(v, ',')| && forall k :: 0 <= k < |names| ==> names[k] == Trim(Split(v, ',')[k])
  }

  ghost predicate LimitSays(q: Query, key: string, absent: nat, n: nat) {
    if key in q && q[key] != [] then Reads(q[key][0], n) else n == absent
  }

  predicate OrderSays(q: Query, order: seq<Order>)
    requires ValidQuery(q)
  {
    order == if "order_by" !in q then []
             else [Order(q["order_by"][0], "order" in q && Folds(q["order"][0], "desc"))]
  }

  /** Columns, order, page and count are those the texts name. */
  ghost predicate Says(q: Query, o: Options, p: Request)
    requires ValidQuery(q)
  {
    && (if "select" in q then Lists(q["select"][0], p.select) else p.select == [])
    && OrderSays(q, p.order) && LimitSays(q, "limit", o.defaultLimit, p.limit) && LimitSays(q, "offset", 0, p.offset)
    && (p.count <==> "count" in q && Folds(q["count"][0], "exact"))
  }

  lemma {:induction false} NamesAreTrimmed(parts: seq<string>, k: nat, look: Lookups)
    requires k <= |parts| && SelectedNames(parts, k, look).Ok?
    ensures var names := SelectedNames(parts, k, look).value;
            |names| == k && forall i :: 0 <= i < k ==> names[i] == Trim(parts[i])
  {
    if k > 0 { NamesAreTrimmed(parts, k - 1, look); }
  }

  lemma OrderIsAsked(q: Query, look: Lookups, order: seq<Order>)
    requires ValidQuery(q) && ParsedOrder(q, look) == Ok(order)
    ensures OrderSays(q, order)
  {
    if "order" in q {
      LowerFolds(q["order"][0], "asc");
      LowerFolds(q["order"][0], "desc");
    }
  }

  lemma NumberIsAsked(q: Query, key: string, absent: nat, lo: int, hi: int, bad: Problem, n: nat)
    requires ValidQuery(q) && 0 <= lo && ParsedNumber(q, key, absent, lo, hi, bad) == Ok(n)
    ensures LimitSays(q, key, absent, n)
  {
    if key in q { AtoiReads(q[key][0], n); }
  }

  lemma RequestIsAsked(q: Query, keys: seq<string>, rel: Relation, o: Options, p: Request)
    requires ValidQuery(q) && IsParse(q, keys, rel, o, p)
    ensures Says(q, o, p)
  {
    if "select" in q { NamesAreTrimmed(Split(q["select"][0], ','), |Split(q["select"][0], ',')|, Looker(rel)); }
    OrderIsAsked(q, Looker(rel), p.order);
    NumberIsAsked(q, "limit", o.defaultLimit, 1, o.maxLimit, BadLimit, p.limit);
    NumberIsAsked(q, "offset", 0, 0, MAX_INT, BadOffset, p.offset);
    if "count" in q { LowerFolds(q["count"][0], "exact"); }
  }

  // ---------------------------------------------------------------- refused values and groups

  predicate TextColumn(rel: Relation, name: string) {
    exists k :: 0 <= k < |rel.columns| && rel.columns[k].name == name && rel.columns[k].textLike
  }

  /** The list has no value but spaces, or too many. */
  predicate BadList(list: string, o: Options) { Blank(list) || |Split(list, ',')| > o.maxInValues }

  /** Not exposed, a malformed list or null test, a pattern on a column that is no text, or a plain
      value where an operator is needed. */
  predicate Refused(raw: string, plain: bool, col: string, rel: Relation, o: Options) {
    || !Exposed(rel, col)
    || (HasPrefix(raw, "is.") && raw != "is.null" && raw != "is.notnull")
    || (HasPrefix(raw, "in.") &&
          (!HasPrefix(raw, "in.(") || !HasSuffix(raw, ")") || |raw| < 5 || BadList(raw[4..|raw| - 1], o)))
    || ((HasPrefix(raw, "like.") || HasPrefix(raw, "ilike.")) && !TextColumn(rel, col))
    || (!plain && Bare(raw))
  }

  lemma FoundColumn(rel: Relation, name: string)
    requires DistinctNames(rel.columns) && ExposedColumn(rel, name).Ok?
    ensures ExposedColumn(rel, name).value.textLike <==> TextColumn(rel, name)
  {
    LookupFinds(rel.columns, name);
    var c := Lookup(rel.columns, name).value;
    var j :| 0 <= j < |rel.columns| && rel.columns[j] == c;
  }

  lemma FormsTellOperators(raw: string, plain: bool)
    requires ParseFilter(raw, plain).Ok?
    ensures var c := ParseFilter(raw, plain).value;
            && (c.op in {Compare(Like), Compare(ILike)} <==> HasPrefix(raw, "like.") || HasPrefix(raw, "ilike."))
            && (c.op.In? <==> HasPrefix(raw, "in."))
  {
    if Bare(raw) {
      BareIsEquality(raw);
    } else if HasPrefix(raw, "in.") || HasPrefix(raw, "is.") {
      OtherForms(raw, plain);
      NotAComparison(raw);
    } else {
      ComparisonForms(raw, plain);
    }
  }

  /** A filter value of a column is refused exactly for one of these reasons. */
  lemma ValueIsRefused(raw: string, plain: bool, col: string, rel: Relation, o: Options)
    requires DistinctNames(rel.columns)
    ensures (match ExposedColumn(rel, col)
             case Err(_) => true
             case Ok(column) => Parser.Named(ParseFilter(raw, plain), col, column, o).Err?)
       <==> Refused(raw, plain, col, rel, o)
  {
    ExposedIsExposed(rel, col);
    if ExposedColumn(rel, col).Ok? {
      FoundColumn(rel, col);
      if ParseFilter(raw, plain).Ok? {
        FormsTellOperators(raw, plain);
        AcceptedForm(raw, plain, o);
      } else {
        RefusedForm(raw, plain);
      }
    }
  }

  lemma AcceptedForm(raw: string, plain: bool, o: Options)
    requires ParseFilter(raw, plain).Ok?
    ensures !(HasPrefix(raw, "is.") && raw != "is.null" && raw != "is.notnull") && (plain || !Bare(raw))
    ensures HasPrefix(raw, "in.") ==>
              && HasPrefix(raw, "in.(") && HasSuffix(raw, ")") && |raw| >= 5 && !Blank(raw[4..|raw| - 1])
              && |ParseFilter(raw, plain).value.values| == |Split(raw[4..|raw| - 1], ',')|
  {
    OtherForms(raw, plain);
    if Bare(raw) { BareIsEquality(raw); }
    if HasPrefix(raw, "in.") { TrimAllAt(Split(raw[4..|raw| - 1], ','), 0); }
  }

  lemma RefusedForm(raw: string, plain: bool)
    requires ParseFilter(raw, plain).Err?
    ensures || (HasPrefix(raw, "is.") && raw != "is.null" && raw != "is.notnull") || (!plain && Bare(raw))
            || (HasPrefix(raw, "in.") &&
                  (!HasPrefix(raw, "in.(") || !HasSuffix(raw, ")") || |raw| < 5 || Blank(raw[4..|raw| - 1])))
  {
    OtherForms(raw, plain);
    ComparisonForms(raw, plain);
    if Bare(raw) { BareIsEquality(raw); }
  }

  /** A term without a point, without a name before it, or with a refused value. */
  ghost predicate TermRefused(term: string, rel: Relation, o: Options) {
    Lacks(term, '.')
    || exists n :: 0 <= n < |term| && term[n] == '.' && Lacks(term[..n], '.')
                   && (n == 0 || Refused(term[n + 1..], false, term[..n], rel, o))
  }

  lemma TermIsRefused(term: string, rel: Relation, o: Options)
    requires DistinctNames(rel.columns)
    ensures ParseTerm(term, rel, o).Err? <==> TermRefused(term, rel, o)
  {
    FirstPoint(term);
    if Cut(term, '.').Some? {
      var (col, rest) := Cut(term, '.').value;
      ValueIsRefused(rest, false, col, rel, o);
    }
  }

  /** No parentheses, a refused term, or nothing but blank terms. */
  ghost predicate GroupRefused(raw: string, rel: Relation, o: Options) {
    || !HasPrefix(raw, "(") || !HasSuffix(raw, ")") || |raw| < 2
    || var terms := SplitFrom(raw[1..|raw| - 1], 0);
       SomeRefused(terms, |terms|, rel, o) || AllBlank(terms, |terms|)
  }

  ghost predicate SomeRefused(terms: seq<string>, k: nat, rel: Relation, o: Options)
    requires k <= |terms|
  {
    exists i :: 0 <= i < k && !Blank(terms[i]) && TermRefused(Trim(terms[i]), rel, o)
  }

  ghost predicate AllBlank(terms: seq<string>, k: nat)
    requires k <= |terms|
  {
    forall i :: 0 <= i < k ==> Blank(terms[i])
  }

  lemma OneMoreRefused(terms: seq<string>, k: nat, rel: Relation, o: Options)
    requires 0 < k <= |terms|
    ensures SomeRefused(terms, k, rel, o) <==>
      SomeRefused(terms, k - 1, rel, o) || (!Blank(terms[k - 1]) && TermRefused(Trim(terms[k - 1]), rel, o))
    ensures AllBlank(terms, k) <==> AllBlank(terms, k - 1) && Blank(terms[k - 1])
  {
  }

  lemma OneMoreTerm(terms: seq<string>, k: nat, rel: Relation, o: Options)
    requires DistinctNames(rel.columns) && 0 < k <= |terms|
    ensures var r := ReadTerm(terms[k - 1], rel, o);
            && (SomeRefused(terms, k, rel, o) <==> SomeRefused(terms, k - 1, rel, o) || (r.Some? && r.value.Err?))
            && (AllBlank(terms, k) <==> AllBlank(terms, k - 1) && r.None?)
  {
    OneMoreRefused(terms, k, rel, o);
    TrimKeeps(terms[k - 1]);
    TermIsRefused(Trim(terms[k - 1]), rel, o);
  }

  /** The first k terms: some is refused, or they give as many conditions as are not blank. */
  lemma {:induction false} TermsRefused(terms: seq<string>, k: nat, read: Reader, rel: Relation, o: Options)
    requires DistinctNames(rel.columns) && k <= |terms| && forall t :: read(t) == ReadTerm(t, rel, o)
    ensures ParsedTerms(terms, k, read).Err? <==> SomeRefused(terms, k, rel, o)
    ensures ParsedTerms(terms, k, read).Ok? ==> (ParsedTerms(terms, k, read).value == [] <==> AllBlank(terms, k))
  {
    if k > 0 {
      TermsRefused(terms, k - 1, read, rel, o);
      OneMoreTerm(terms, k, rel, o);
      assert read(terms[k - 1]) == ReadTerm(terms[k - 1], rel, o);
    }
  }

  lemma GroupIsRefused(raw: string, rel: Relation, o: Options)
    requires DistinctNames(rel.columns)
    ensures GroupReader(rel, o)(raw).Err? <==> GroupRefused(raw, rel, o)
  {
    if HasPrefix(raw, "(") && HasSuffix(raw, ")") && |raw| >= 2 {
      var terms := SplitFrom(raw[1..|raw| - 1], 0);
      TermsRefused(terms, |terms|, t => ReadTerm(t, rel, o), rel, o);
    }
  }

  // ---------------------------------------------------------------- refused queries

  predicate Repeats(q: Query, key: string) { key in q && |q[key]| > 1 }

  /** A parameter that may be given once only. */
  predicate OnlyOnce(key: string) { IsReserved(key) && key != "or" }

  predicate SelectRefused(v: string, rel: Relation) {
    Blank(v) || SomeHidden(Split(v, ','), |Split(v, ',')|, rel) || SomeTwice(Split(v, ','), |Split(v, ',')|)
  }

  predicate OrderRefused(q: Query, rel: Relation)
    requires ValidQuery(q)
  {
    || ("order_by" in q && !Exposed(rel, q["order_by"][0]))
    || ("order" in q && ("order_by" !in q || (!Folds(q["order"][0], "asc") && !Folds(q["order"][0], "desc"))))
  }

  ghost predicate NumberRefused(q: Query, key: string, lo: int, hi: int) {
    key in q && q[key] != [] && !exists n :: lo <= n <= hi && n <= 0x7FFF_FFFF_FFFF_FFFF && Reads(q[key][0], n)
  }

  predicate CountRefused(q: Query)
    requires ValidQuery(q)
  {
    "count" in q && q["count"][0] != "" && !Folds(q["count"][0], "exact") && !Folds(q["count"][0], "none")
  }

  predicate ToggleRefused(values: seq<string>) {
    |values| != 1 || (!IsOnText(values[0]) && !IsOffText(values[0]))
  }

  /** A toggle that is repeated or neither on nor off, or a column with a refused value. */
  predicate KeyRefused(q: Query, rel: Relation, o: Options, key: string)
    requires key in q
  {
    if IsToggle(rel, key) then ToggleRefused(q[key])
    else exists i :: 0 <= i < |q[key]| && Refused(q[key][i], true, key, rel, o)
  }

  /** A query is refused exactly for one of these reasons. */
  ghost predicate QueryRefused(q: Query, rel: Relation, o: Options)
    requires ValidQuery(q)
  {
    || (exists key :: OnlyOnce(key) && Repeats(q, key))
    || ("select" in q && SelectRefused(q["select"][0], rel)) || OrderRefused(q, rel)
    || NumberRefused(q, "limit", 1, o.maxLimit) || NumberRefused(q, "offset", 0, 0x7FFF_FFFF_FFFF_FFFF)
    || CountRefused(q)
    || ("or" in q && exists i :: 0 <= i < |q["or"]| && GroupRefused(q["or"][i], rel, o))
    || (exists key :: key in q && !IsReserved(key) && KeyRefused(q, rel, o, key))
  }

  predicate SomeHidden(parts: seq<string>, k: nat, rel: Relation)
    requires k <= |parts|
  {
    exists i :: 0 <= i < k && !Exposed(rel, Trim(parts[i]))
  }

  predicate SomeTwice(parts: seq<string>, k: nat)
    requires k <= |parts|
  {
    exists i, j :: 0 <= i < j < k && Trim(parts[i]) == Trim(parts[j])
  }

  lemma OneMoreName(parts: seq<string>, k: nat, names: seq<string>)
    requires 0 < k <= |parts| && |names| == k - 1 && forall i :: 0 <= i < k - 1 ==> names[i] == Trim(parts[i])
    ensures SomeTwice(parts, k) <==> SomeTwice(parts, k - 1) || Trim(parts[k - 1]) in names
  {
    if i :| 0 <= i < k - 1 && Trim(parts[i]) == Trim(parts[k - 1]) { assert names[i] in names; }
  }

  lemma OneMoreHidden(parts: seq<string>, k: nat, rel: Relation)
    requires 0 < k <= |parts|
    ensures SomeHidden(parts, k, rel) <==> SomeHidden(parts, k - 1, rel) || !Exposed(rel, Trim(parts[k - 1]))
  {
  }

  lemma {:induction false} NamesAreRefused(parts: seq<string>, k: nat, rel: Relation, look: Lookups)
    requires k <= |parts| && forall name :: look(name).Ok? <==> Exposed(rel, name)
    ensures SelectedNames(parts, k, look).Err? <==> SomeHidden(parts, k, rel) || SomeTwice(parts, k)
  {
    if k > 0 {
      NamesAreRefused(parts, k - 1, rel, look);
      OneMoreHidden(parts, k, rel);
      var before := SelectedNames(parts, k - 1, look);
      if before.Ok? {
        NamesAreTrimmed(parts, k - 1, look);
        OneMoreName(parts, k, before.value);
      } else {
        TwiceStays(parts, k);
      }
    }
  }

  lemma TwiceStays(parts: seq<string>, k: nat)
    requires 0 < k <= |parts|
    ensures SomeTwice(parts, k - 1) ==> SomeTwice(parts, k)
  {
  }

  lemma SelectIsRefused(q: Query, rel: Relation)
    requires ValidQuery(q) && DistinctNames(rel.columns)
    ensures SelectOf(q, rel).Err? <==>
      "select" in q && (|q["select"]| > 1 || SelectRefused(q["select"][0], rel))
  {
    if "select" in q {
      var v := q["select"][0];
      TrimKeeps(v);
      forall name ensures Looker(rel)(name).Ok? <==> Exposed(rel, name) { ExposedIsExposed(rel, name); }
      NamesAreRefused(Split(v, ','), |Split(v, ',')|, rel, Looker(rel));
    }
  }

  lemma OrderIsRefused(q: Query, rel: Relation)
    requires ValidQuery(q) && DistinctNames(rel.columns)
    ensures ParsedOrder(q, Looker(rel)).Err? <==>
      ("order_by" in q && |q["order_by"]| > 1) || ("order" in q && |q["order"]| > 1) || OrderRefused(q, rel)
  {
    if "order_by" in q { ExposedIsExposed(rel, q["order_by"][0]); }
    if "order" in q {
      LowerFolds(q["order"][0], "asc");
      LowerFolds(q["order"][0], "desc");
    }
  }

  lemma NumberIsRefused(q: Query, key: string, absent: nat, lo: int, hi: int, bad: Problem)
    requires ValidQuery(q) && 0 <= lo
    ensures ParsedNumber(q, key, absent, lo, hi, bad).Err? <==>
      (key in q && |q[key]| > 1) || NumberRefused(q, key, lo, hi)
  {
    if key in q {
      var v := q[key][0];
      forall n: int ensures Atoi(v) == Some(n) <==> Reads(v, n) && -MAX_INT - 1 <= n <= MAX_INT { AtoiReads(v, n); }
    }
  }

  lemma CountIsRefused(q: Query)
    requires ValidQuery(q)
    ensures ParsedCount(q).Err? <==> ("count" in q && |q["count"]| > 1) || CountRefused(q)
  {
    if "count" in q {
      LowerFolds(q["count"][0], "exact");
      LowerFolds(q["count"][0], "none");
    }
  }

  lemma KeyIsRefused(q: Query, rel: Relation, o: Options, key: string)
    requires ValidQuery(q) && DistinctNames(rel.columns) && key in q
    ensures IsBad(q, key, ToggleKeys(rel), ColumnReader(rel, o)) <==> KeyRefused(q, rel, o, key)
  {
    ToggleTexts(q[key][0]);
    forall i | 0 <= i < |q[key]|
      ensures ColumnReader(rel, o)(key, q[key][i]).Err? <==> Refused(q[key][i], true, key, rel, o)
    {
      ValueIsRefused(q[key][i], true, key, rel, o);
    }
  }

  lemma GroupsAreRefused(q: Query, rel: Relation, o: Options)
    requires DistinctNames(rel.columns)
    ensures (exists i :: 0 <= i < |RawGroups(q)| && GroupReader(rel, o)(RawGroups(q)[i]).Err?) <==>
      ("or" in q && exists i :: 0 <= i < |q["or"]| && GroupRefused(q["or"][i], rel, o))
  {
    forall i | 0 <= i < |RawGroups(q)|
      ensures GroupReader(rel, o)(RawGroups(q)[i]).Err? <==> GroupRefused(RawGroups(q)[i], rel, o)
    {
      GroupIsRefused(RawGroups(q)[i], rel, o);
    }
    if "or" in q {
      if i :| 0 <= i < |q["or"]| && GroupRefused(q["or"][i], rel, o) {
        assert GroupReader(rel, o)(RawGroups(q)[i]).Err?;
      }
    }
  }

  lemma ReservedAre(key: string)
    ensures key in RESERVED <==> IsReserved(key)
  {
  }

  lemma KeysAreRefused(q: Query, rel: Relation, o: Options)
    requires ValidQuery(q) && DistinctNames(rel.columns)
    ensures (exists key :: key in q && key !in RESERVED && IsBad(q, key, ToggleKeys(rel), ColumnReader(rel, o))) <==>
      exists key :: key in q && !IsReserved(key) && KeyRefused(q, rel, o, key)
  {
    if key :| key in q && key !in RESERVED && IsBad(q, key, ToggleKeys(rel), ColumnReader(rel, o)) {
      KeyIsRefused(q, rel, o, key);
      ReservedAre(key);
    }
    if key :| key in q && !IsReserved(key) && KeyRefused(q, rel, o, key) {
      KeyIsRefused(q, rel, o, key);
      ReservedAre(key);
    }
  }

  lemma RepeatsAre(q: Query)
    ensures (exists key :: OnlyOnce(key) && Repeats(q, key)) <==>
      || Repeats(q, "select") || Repeats(q, "order_by") || Repeats(q, "order") || Repeats(q, "limit")
      || Repeats(q, "offset") || Repeats(q, "count")
  {
    assert OnlyOnce("select") && OnlyOnce("order_by") && OnlyOnce("order") && OnlyOnce("limit") && OnlyOnce("offset")
      && OnlyOnce("count");
  }

  /** Parse refuses exactly the queries that are to be refused. */
  lemma RejectedIsRefused(q: Query, rel: Relation, o: Options)
    requires ValidQuery(q) && DistinctNames(rel.columns)
    ensures Rejected(q, rel, o) <==> QueryRefused(q, rel, o)
  {
    RepeatsAre(q);
    SelectIsRefused(q, rel);
    OrderIsRefused(q, rel);
    NumberIsRefused(q, "limit", o.defaultLimit, 1, o.maxLimit, BadLimit);
    NumberIsRefused(q, "offset", 0, 0, MAX_INT, BadOffset);
    CountIsRefused(q);
    GroupsAreRefused(q, rel, o);
    KeysAreRefused(q, rel, o);
  }
}
