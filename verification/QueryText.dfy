/** What the texts of a query string ask for, said without the parser: prefixes, commas and points
    alone. Parsing, compiling and evaluating together select exactly the rows the texts describe. */
module QueryText {
  import opened Wrappers
  import opened Decimal
  import opened Sql
  import opened Catalog
  import opened Grammar
  import opened Filters
  import opened Parser
  import opened Requests
  import opened Select
  import opened SelectMeaning

  // ---------------------------------------------------------------- one filter value

  /** A plain value: it begins with none of the operator names and a point. */
  predicate Bare(raw: string) {
    && !HasPrefix(raw, "eq.") && !HasPrefix(raw, "neq.") && !HasPrefix(raw, "gt.") && !HasPrefix(raw, "gte.")
    && !HasPrefix(raw, "lt.") && !HasPrefix(raw, "lte.") && !HasPrefix(raw, "like.") && !HasPrefix(raw, "ilike.")
    && !HasPrefix(raw, "in.") && !HasPrefix(raw, "is.")
  }

  lemma {:induction false} CutFinds(s: string, c: char)
    ensures Cut(s, c).None? <==> Lacks(s, c)
    ensures Cut(s, c).Some? ==>
              Lacks(Cut(s, c).value.0, c) && s == Cut(s, c).value.0 + [c] + Cut(s, c).value.1
  {
    if s != "" {
      CutFinds(s[1..], c);
      assert s == [s[0]] + s[1..];
      assert Lacks(s, c) <==> s[0] != c && Lacks(s[1..], c) by {
        assert forall k :: 0 <= k < |s| - 1 ==> s[1..][k] == s[k + 1];
      }
    }
  }

  lemma CutPrefix(raw: string, name: string)
    requires Lacks(name, '.') && HasPrefix(raw, name + ".")
    ensures Cut(raw, '.') == Some((name, raw[|name| + 1..]))
  {
    assert raw == name + ['.'] + raw[|name| + 1..];
    CutAt(name, '.', raw[|name| + 1..]);
  }

  /** A value that begins with an operator's name and a point is that comparison. */
  lemma ComparisonForm(raw: string, allowBare: bool, name: string, op: Operator)
    requires HasPrefix(raw, name + ".") && OpNamed(name) == Some(op)
    requires name in {"eq", "neq", "gt", "gte", "lt", "lte", "like", "ilike"}
    ensures ParseFilter(raw, allowBare) == Ok(Cond("", Compare(op), [raw[|name| + 1..]], false))
  {
    CutPrefix(raw, name);
    if HasPrefix(raw, "in.(") { CutPrefix(raw, "in"); }
    if raw == "is.null" || raw == "is.notnull" { CutPrefix(raw, "is"); }
  }

  lemma FirstForms(raw: string, allowBare: bool)
    ensures var r := ParseFilter(raw, allowBare);
            && (HasPrefix(raw, "eq.") ==> r == Ok(Cond("", Compare(Eq), [raw[3..]], false)))
            && (HasPrefix(raw, "neq.") ==> r == Ok(Cond("", Compare(Neq), [raw[4..]], false)))
            && (HasPrefix(raw, "gt.") ==> r == Ok(Cond("", Compare(Gt), [raw[3..]], false)))
            && (HasPrefix(raw, "gte.") ==> r == Ok(Cond("", Compare(Gte), [raw[4..]], false)))
  {
    if HasPrefix(raw, "eq.") { ComparisonForm(raw, allowBare, "eq", Eq); }
    if HasPrefix(raw, "neq.") { ComparisonForm(raw, allowBare, "neq", Neq); }
    if HasPrefix(raw, "gt.") { ComparisonForm(raw, allowBare, "gt", Gt); }
    if HasPrefix(raw, "gte.") { ComparisonForm(raw, allowBare, "gte", Gte); }
  }

  lemma OtherComparisons(raw: string, allowBare: bool)
    ensures var r := ParseFilter(raw, allowBare);
            && (HasPrefix(raw, "lt.") ==> r == Ok(Cond("", Compare(Lt), [raw[3..]], false)))
            && (HasPrefix(raw, "lte.") ==> r == Ok(Cond("", Compare(Lte), [raw[4..]], false)))
            && (HasPrefix(raw, "like.") ==> r == Ok(Cond("", Compare(Like), [raw[5..]], false)))
            && (HasPrefix(raw, "ilike.") ==> r == Ok(Cond("", Compare(ILike), [raw[6..]], false)))
  {
    if HasPrefix(raw, "lt.") { ComparisonForm(raw, allowBare, "lt", Lt); }
    if HasPrefix(raw, "lte.") { ComparisonForm(raw, allowBare, "lte", Lte); }
    if HasPrefix(raw, "like.") { ComparisonForm(raw, allowBare, "like", Like); }
    if HasPrefix(raw, "ilike.") { ComparisonForm(raw, allowBare, "ilike", ILike); }
  }

  lemma ComparisonForms(raw: string, allowBare: bool)
    ensures var r := ParseFilter(raw, allowBare);
            && (HasPrefix(raw, "eq.") ==> r == Ok(Cond("", Compare(Eq), [raw[3..]], false)))
            && (HasPrefix(raw, "neq.") ==> r == Ok(Cond("", Compare(Neq), [raw[4..]], false)))
            && (HasPrefix(raw, "gt.") ==> r == Ok(Cond("", Compare(Gt), [raw[3..]], false)))
            && (HasPrefix(raw, "gte.") ==> r == Ok(Cond("", Compare(Gte), [raw[4..]], false)))
            && (HasPrefix(raw, "lt.") ==> r == Ok(Cond("", Compare(Lt), [raw[3..]], false)))
            && (HasPrefix(raw, "lte.") ==> r == Ok(Cond("", Compare(Lte), [raw[4..]], false)))
            && (HasPrefix(raw, "like.") ==> r == Ok(Cond("", Compare(Like), [raw[5..]], false)))
            && (HasPrefix(raw, "ilike.") ==> r == Ok(Cond("", Compare(ILike), [raw[6..]], false)))
  {
    FirstForms(raw, allowBare);
    OtherComparisons(raw, allowBare);
  }

  /** A plain value is equality with the whole text, and refused where an operator is needed. */
  lemma BareIsEquality(raw: string)
    requires Bare(raw)
    ensures ParseFilter(raw, true) == Ok(Cond("", Compare(Eq), [raw], false))
    ensures ParseFilter(raw, false).Err?
  {
    CutFinds(raw, '.');
    if Cut(raw, '.').Some? {
      var name := Cut(raw, '.').value.0;
      assert HasPrefix(raw, name + ".");
    }
  }

  /** What else begins with "in." or "is." is a list, a null test, or refused. */
  lemma OtherForms(raw: string, allowBare: bool)
    ensures HasPrefix(raw, "is.") ==>
              ParseFilter(raw, allowBare) == if raw == "is.null" then Ok(Cond("", Is, [], false))
                                             else if raw == "is.notnull" then Ok(Cond("", Is, [], true))
                                             else Err(Malformed)
    ensures HasPrefix(raw, "in.") ==>
              if !HasPrefix(raw, "in.(") || !HasSuffix(raw, ")") then ParseFilter(raw, allowBare).Err?
              else
                && |raw| >= 5
                && ParseFilter(raw, allowBare) == if Blank(raw[4..|raw| - 1]) then Err(EmptyIn)
                     else Ok(Cond("", In, TrimAll(Split(raw[4..|raw| - 1], ',')), false))
  {
    if HasPrefix(raw, "is.") { CutPrefix(raw, "is"); }
    if HasPrefix(raw, "in.") {
      CutPrefix(raw, "in");
      if IsList(raw) {
        assert raw[3] == '(' && raw[|raw| - 1..][0] == ')';
        TrimKeeps(raw[4..|raw| - 1]);
      }
    }
  }

  /** The cell is there and compares with the text. */
  predicate Compares(op: Operator, col: string, text: string, row: Row, meaning: Meaning) {
    Cell(row, col).Some? && meaning(op, col, Cell(row, col).value, text)
  }

  /** The cell equals one of the comma-separated texts, spaces around them apart. */
  ghost predicate EqualsSome(col: string, list: string, row: Row, meaning: Meaning) {
    exists k :: 0 <= k < |Split(list, ',')| && Compares(Eq, col, Trim(Split(list, ',')[k]), row, meaning)
  }

  /** What an accepted filter value says of a row. */
  ghost predicate Says(raw: string, col: string, row: Row, meaning: Meaning) {
    if HasPrefix(raw, "eq.") then Compares(Eq, col, raw[3..], row, meaning)
    else if HasPrefix(raw, "neq.") then Compares(Neq, col, raw[4..], row, meaning)
    else if HasPrefix(raw, "gt.") then Compares(Gt, col, raw[3..], row, meaning)
    else if HasPrefix(raw, "gte.") then Compares(Gte, col, raw[4..], row, meaning)
    else if HasPrefix(raw, "lt.") then Compares(Lt, col, raw[3..], row, meaning)
    else if HasPrefix(raw, "lte.") then Compares(Lte, col, raw[4..], row, meaning)
    else if HasPrefix(raw, "like.") then Compares(Like, col, raw[5..], row, meaning)
    else if HasPrefix(raw, "ilike.") then Compares(ILike, col, raw[6..], row, meaning)
    else if raw == "is.null" then Cell(row, col).None?
    else if raw == "is.notnull" then Cell(row, col).Some?
    else if HasPrefix(raw, "in.(") && |raw| >= 5 then EqualsSome(col, raw[4..|raw| - 1], row, meaning)
    else Compares(Eq, col, raw, row, meaning)
  }

  lemma ListSays(list: string, col: string, row: Row, meaning: Meaning)
    ensures Holds(Cond(col, In, TrimAll(Split(list, ',')), false), row, meaning) <==>
      EqualsSome(col, list, row, meaning)
  {
    var parts := Split(list, ',');
    TrimAllAt(parts, 0);
    forall k | 0 <= k < |parts| ensures TrimAll(parts)[k] == Trim(parts[k]) { TrimAllAt(parts, k); }
  }

  /** The condition an accepted filter value is parsed to holds of exactly the rows of which the
      text says so. */
  lemma FilterSays(raw: string, allowBare: bool, col: string, row: Row, meaning: Meaning)
    requires ParseFilter(raw, allowBare).Ok?
    ensures Holds(ParseFilter(raw, allowBare).value.(col := col), row, meaning) <==> Says(raw, col, row, meaning)
  {
    if Bare(raw) {
      BareIsEquality(raw);
      NotAListOrTest(raw);
    } else if HasPrefix(raw, "in.") || HasPrefix(raw, "is.") {
      OtherForms(raw, allowBare);
      NotAComparison(raw);
      if HasPrefix(raw, "in.") { ListSays(raw[4..|raw| - 1], col, row, meaning); }
    } else {
      ComparisonForms(raw, allowBare);
    }
  }

  lemma NotAListOrTest(raw: string)
    requires Bare(raw)
    ensures !HasPrefix(raw, "in.(") && raw != "is.null" && raw != "is.notnull"
  {
  }

  lemma NotAComparison(raw: string)
    requires HasPrefix(raw, "in.") || HasPrefix(raw, "is.")
    ensures !HasPrefix(raw, "eq.") && !HasPrefix(raw, "neq.") && !HasPrefix(raw, "gt.") && !HasPrefix(raw, "gte.")
    ensures !HasPrefix(raw, "lt.") && !HasPrefix(raw, "lte.") && !HasPrefix(raw, "like.") && !HasPrefix(raw, "ilike.")
    ensures HasPrefix(raw, "in.") ==> raw != "is.null" && raw != "is.notnull"
    ensures HasPrefix(raw, "is.") ==> !HasPrefix(raw, "in.(")
  {
    assert raw[0] == 'i' && raw[1] == if HasPrefix(raw, "in.") then 'n' else 's';
    assert "is.null"[1] == 's' && "is.notnull"[1] == 's';
  }

  // ---------------------------------------------------------------- OR groups

  /** The term names a column, up to its first point, of which the rest says so. */
  ghost predicate TermSays(term: string, row: Row, meaning: Meaning) {
    exists n ::
      0 <= n < |term| && term[n] == '.' && Lacks(term[..n], '.') && Says(term[n + 1..], term[..n], row, meaning)
  }

  /** Some term of the parenthesised list says so; blank terms say nothing. */
  ghost predicate GroupSays(raw: string, row: Row, meaning: Meaning) {
    |raw| >= 2 &&
    var terms := SplitFrom(raw[1..|raw| - 1], 0);
    exists k :: 0 <= k < |terms| && TermSays(Trim(terms[k]), row, meaning)
  }

  lemma PointIsCut(term: string, n: nat)
    requires n < |term| && term[n] == '.' && Lacks(term[..n], '.')
    ensures Cut(term, '.') == Some((term[..n], term[n + 1..]))
  {
    assert term == term[..n] + ['.'] + term[n + 1..];
    CutAt(term[..n], '.', term[n + 1..]);
  }

  lemma CutIsPoint(term: string, col: string, rest: string)
    requires Cut(term, '.') == Some((col, rest))
    ensures |col| < |term| && term[|col|] == '.' && Lacks(term[..|col|], '.')
    ensures term[..|col|] == col && term[|col| + 1..] == rest
  {
    CutFinds(term, '.');
    assert term == col + ['.'] + rest;
  }

  /** The first point of a term. */
  lemma FirstPoint(term: string)
    ensures Cut(term, '.').None? <==> Lacks(term, '.')
    ensures Cut(term, '.').Some? ==>
              var n := |Cut(term, '.').value.0|;
              && n < |term| && term[n] == '.' && Lacks(term[..n], '.')
              && Cut(term, '.').value == (term[..n], term[n + 1..])
    ensures forall n :: 0 <= n < |term| && term[n] == '.' && Lacks(term[..n], '.') ==>
              Cut(term, '.') == Some((term[..n], term[n + 1..]))
  {
    CutFinds(term, '.');
    if Cut(term, '.').Some? { CutIsPoint(term, Cut(term, '.').value.0, Cut(term, '.').value.1); }
    forall n | 0 <= n < |term| && term[n] == '.' && Lacks(term[..n], '.')
      ensures Cut(term, '.') == Some((term[..n], term[n + 1..]))
    {
      PointIsCut(term, n);
    }
  }

  lemma TermIsSaid(term: string, rel: Relation, o: Options, row: Row, meaning: Meaning)
    requires ParseTerm(term, rel, o).Ok?
    ensures Holds(ParseTerm(term, rel, o).value, row, meaning) <==> TermSays(term, row, meaning)
  {
    FirstPoint(term);
    var (col, rest) := Cut(term, '.').value;
    FilterSays(rest, false, col, row, meaning);
  }

  lemma ReadTermSays(term: string, rel: Relation, o: Options, row: Row, meaning: Meaning)
    ensures var r := ReadTerm(term, rel, o);
            r.Some? && r.value.Ok? ==> (Holds(r.value.value, row, meaning) <==> TermSays(Trim(term), row, meaning))
    ensures ReadTerm(term, rel, o).None? ==> !TermSays(Trim(term), row, meaning)
  {
    if Trim(term) != "" && ParseTerm(Trim(term), rel, o).Ok? { TermIsSaid(Trim(term), rel, o, row, meaning); }
  }

  ghost predicate SomeSays(terms: seq<string>, k: nat, row: Row, meaning: Meaning)
    requires k <= |terms|
  {
    exists i :: 0 <= i < k && TermSays(Trim(terms[i]), row, meaning)
  }

  lemma HoldsSomeSnoc(conds: seq<Cond>, c: Cond, row: Row, meaning: Meaning)
    ensures HoldsSome(conds + [c], row, meaning) <==> HoldsSome(conds, row, meaning) || Holds(c, row, meaning)
  {
    var all := conds + [c];
    if i :| 0 <= i < |conds| && Holds(conds[i], row, meaning) { assert all[i] == conds[i]; }
    assert all[|conds|] == c;
  }

  lemma SomeSaysSnoc(terms: seq<string>, k: nat, row: Row, meaning: Meaning)
    requires 0 < k <= |terms|
    ensures SomeSays(terms, k, row, meaning) <==>
      SomeSays(terms, k - 1, row, meaning) || TermSays(Trim(terms[k - 1]), row, meaning)
  {
  }

  /** Reading the terms one by one keeps what each says. */
  lemma {:induction false} SomeTermSays(terms: seq<string>, k: nat, read: Reader, rel: Relation, o: Options, row: Row,
                                        meaning: Meaning)
    requires k <= |terms| && ParsedTerms(terms, k, read).Ok? && forall t :: read(t) == ReadTerm(t, rel, o)
    ensures HoldsSome(ParsedTerms(terms, k, read).value, row, meaning) <==> SomeSays(terms, k, row, meaning)
  {
    if k > 0 {
      SomeTermSays(terms, k - 1, read, rel, o, row, meaning);
      SomeSaysSnoc(terms, k, row, meaning);
      ReadTermSays(terms[k - 1], rel, o, row, meaning);
      var c := read(terms[k - 1]);
      if c.Some? { HoldsSomeSnoc(ParsedTerms(terms, k - 1, read).value, c.value.value, row, meaning); }
    }
  }

  lemma GroupIsSaid(raw: string, rel: Relation, o: Options, row: Row, meaning: Meaning)
    requires ParsedGroup(raw, rel, o).Ok?
    ensures HoldsSome(ParsedGroup(raw, rel, o).value, row, meaning) <==> GroupSays(raw, row, meaning)
  {
    var terms := SplitFrom(raw[1..|raw| - 1], 0);
    SomeTermSays(terms, |terms|, t => ReadTerm(t, rel, o), rel, o, row, meaning);
  }

  // ---------------------------------------------------------------- the whole query

  /** Equal but for the case of ASCII letters; the second text has none in upper case. */
  predicate Folds(s: string, low: string) {
    |s| == |low|
    && forall k :: 0 <= k < |s| ==> s[k] == low[k] || ('A' <= s[k] <= 'Z' && s[k] as int + 32 == low[k] as int)
  }

  lemma LowerFolds(s: string, low: string)
    requires forall k :: 0 <= k < |low| ==> !('A' <= low[k] <= 'Z')
    ensures Lower(s) == low <==> Folds(s, low)
  {
    assert |Lower(s)| == |s| && forall k :: 0 <= k < |s| ==> Lower(s)[k] == LowerChar(s[k]);
    if Folds(s, low) { assert Lower(s) == low; }
  }

  predicate IsReserved(key: string) {
    || key == "select" || key == "order_by" || key == "order" || key == "limit" || key == "offset" || key == "count"
    || key == "or"
  }

  predicate IsToggle(rel: Relation, key: string) { exists t :: t in rel.toggles && t.key == key }

  /** Every other key is a column's. */
  predicate IsFilter(q: Query, rel: Relation, key: string) { key in q && !IsReserved(key) && !IsToggle(rel, key) }

  predicate SwitchedOn(q: Query, key: string) {
    key in q && q[key] != [] && !IsReserved(key)
    && IsOnText(q[key][0])
  }

  predicate IsOnText(v: string) { Folds(v, "1") || Folds(v, "true") || Folds(v, "yes") || Folds(v, "on") }

  predicate IsOffText(v: string) { Folds(v, "0") || Folds(v, "false") || Folds(v, "no") || Folds(v, "off") }

  lemma ToggleTexts(v: string)
    ensures ToggleValue(v) == Some(true) <==> IsOnText(v)
    ensures ToggleValue(v) == Some(false) <==> IsOffText(v)
  {
    LowerFolds(v, "1");
    LowerFolds(v, "true");
    LowerFolds(v, "yes");
    LowerFolds(v, "on");
    LowerFolds(v, "0");
    LowerFolds(v, "false");
    LowerFolds(v, "no");
    LowerFolds(v, "off");
  }

  /** The rows a query asks for: every value of every column says so, every OR group does, the
      relation's own predicates hold and so do those of the toggles that are not switched on. */
  ghost predicate Asked(q: Query, rel: Relation, row: Row, meaning: Meaning) {
    && ValuesSay(q, rel, row, meaning)
    && GroupsSay(q, row, meaning)
    && (forall i :: 0 <= i < |rel.forced| ==> Said(rel.forced[i], row, meaning))
    && OffSays(q, rel, row, meaning)
  }

  ghost predicate GroupsSay(q: Query, row: Row, meaning: Meaning) {
    "or" in q ==> forall i :: 0 <= i < |q["or"]| ==> GroupSays(q["or"][i], row, meaning)
  }

  ghost predicate OffSays(q: Query, rel: Relation, row: Row, meaning: Meaning) {
    forall i :: 0 <= i < |rel.toggles| && !SwitchedOn(q, rel.toggles[i].key) ==>
      Said(rel.toggles[i].whenOff, row, meaning)
  }

  lemma ToggleIsSwitched(q: Query, keys: seq<string>, rel: Relation, p: Request, key: string)
    requires ValidQuery(q) && Visits(q, keys) && AreSet(q, keys, ToggleKeys(rel), p.toggles) && key in ToggleKeys(rel)
    ensures IsOn(p, key) <==> SwitchedOn(q, key)
  {
    if key in q { ToggleTexts(q[key][0]); }
  }

  lemma ColumnSays(key: string, v: string, rel: Relation, o: Options, c: Cond, row: Row, meaning: Meaning)
    requires ColumnReader(rel, o)(key, v) == Ok(c)
    ensures Holds(c, row, meaning) <==> Says(v, key, row, meaning)
  {
    FilterSays(v, true, key, row, meaning);
  }

  /** Every filter value says so of the row. */
  ghost predicate ValuesSay(q: Query, rel: Relation, row: Row, meaning: Meaning) {
    forall key, i :: IsFilter(q, rel, key) && 0 <= i < |q[key]| ==> Says(q[key][i], key, row, meaning)
  }

  /** The condition of one place. */
  lemma PlaceSays(q: Query, keys: seq<string>, rel: Relation, o: Options, at: Place, c: Cond, row: Row,
                  meaning: Meaning)
    requires Visits(q, keys) && IsPlace(q, keys, |keys|, ToggleKeys(rel), at)
    requires ColumnReader(rel, o)(keys[at.key], q[keys[at.key]][at.value]) == Ok(c)
    ensures IsFilter(q, rel, keys[at.key])
    ensures Holds(c, row, meaning) <==> Says(q[keys[at.key]][at.value], keys[at.key], row, meaning)
  {
    FilterKey(q, keys, rel, keys[at.key]);
    ColumnSays(keys[at.key], q[keys[at.key]][at.value], rel, o, c, row, meaning);
  }

  lemma PlaceOf(q: Query, keys: seq<string>, rel: Relation, key: string, i: nat) returns (at: Place)
    requires Visits(q, keys) && IsFilter(q, rel, key) && i < |q[key]|
    ensures IsPlace(q, keys, |keys|, ToggleKeys(rel), at) && keys[at.key] == key && at.value == i
  {
    FilterKey(q, keys, rel, key);
    var n :| 0 <= n < |keys| && keys[n] == key;
    at := Place(n, i);
  }

  lemma CondsSay(q: Query, keys: seq<string>, rel: Relation, o: Options, conds: seq<Cond>, places: seq<Place>, row: Row,
                 meaning: Meaning)
    requires Visits(q, keys) && ComeFrom(q, keys, |keys|, ToggleKeys(rel), ColumnReader(rel, o), conds, places)
    ensures HoldsAll(conds, row, meaning) <==> ValuesSay(q, rel, row, meaning)
  {
    if HoldsAll(conds, row, meaning) {
      forall key, i: nat | IsFilter(q, rel, key) && i < |q[key]| ensures Says(q[key][i], key, row, meaning) {
        var at := PlaceOf(q, keys, rel, key, i);
        assert at in places;
        var j :| 0 <= j < |places| && places[j] == at;
        PlaceSays(q, keys, rel, o, at, conds[j], row, meaning);
      }
    }
    if ValuesSay(q, rel, row, meaning) {
      forall j | 0 <= j < |conds| ensures Holds(conds[j], row, meaning) {
        PlaceSays(q, keys, rel, o, places[j], conds[j], row, meaning);
      }
    }
  }

  lemma FilterKey(q: Query, keys: seq<string>, rel: Relation, key: string)
    requires Visits(q, keys)
    ensures IsFilter(q, rel, key) <==> key in keys && key !in ToggleKeys(rel)
  {
  }

  lemma GroupsAreSaid(q: Query, rel: Relation, o: Options, groups: seq<seq<Cond>>, row: Row, meaning: Meaning)
    requires ParsesAll(RawGroups(q), GroupReader(rel, o), Ok(groups))
    ensures HoldsGroups(groups, row, meaning) <==> GroupsSay(q, row, meaning)
  {
    forall i | 0 <= i < |groups|
      ensures HoldsSome(groups[i], row, meaning) <==> GroupSays(RawGroups(q)[i], row, meaning)
    {
      assert GroupReader(rel, o)(RawGroups(q)[i]) == Ok(groups[i]);
      GroupIsSaid(RawGroups(q)[i], rel, o, row, meaning);
    }
  }

  lemma OffIsSaid(q: Query, keys: seq<string>, rel: Relation, p: Request, row: Row, meaning: Meaning)
    requires ValidQuery(q) && Visits(q, keys) && AreSet(q, keys, ToggleKeys(rel), p.toggles)
    ensures SaidWhenOff(rel.toggles, |rel.toggles|, p, row, meaning) <==> OffSays(q, rel, row, meaning)
  {
    forall i | 0 <= i < |rel.toggles|
      ensures IsOn(p, rel.toggles[i].key) <==> SwitchedOn(q, rel.toggles[i].key)
    {
      ToggleIsSwitched(q, keys, rel, p, rel.toggles[i].key);
    }
  }

  /** The compiled request selects exactly the rows the texts of the query ask for. */
  lemma RequestSaysTheQuery(q: Query, keys: seq<string>, rel: Relation, o: Options, p: Request, row: Row,
                            meaning: Meaning)
    requires ValidQuery(q) && Visits(q, keys) && IsParse(q, keys, rel, o, p)
    ensures Selected(rel, p, row, meaning) <==> Asked(q, rel, row, meaning)
  {
    var places: seq<Place> :| ComeFrom(q, keys, |keys|, ToggleKeys(rel), ColumnReader(rel, o), p.conds, places);
    CondsSay(q, keys, rel, o, p.conds, places, row, meaning);
    GroupsAreSaid(q, rel, o, p.groups, row, meaning);
    OffIsSaid(q, keys, rel, p, row, meaning);
  }

  /** So a plain value of a column selects rows whose cell equals the whole of it. */
  lemma BareSelectsEquals(q: Query, keys: seq<string>, rel: Relation, o: Options, p: Request, row: Row,
                          meaning: Meaning, key: string, i: nat)
    requires ValidQuery(q) && Visits(q, keys) && IsParse(q, keys, rel, o, p) && Selected(rel, p, row, meaning)
    requires IsFilter(q, rel, key) && i < |q[key]| && Bare(q[key][i])
    ensures Cell(row, key).Some? && meaning(Eq, key, Cell(row, key).value, q[key][i])
  {
    RequestSaysTheQuery(q, keys, rel, o, p, row, meaning);
    assert Says(q[key][i], key, row, meaning);
    NotAListOrTest(q[key][i]);
  }
}
