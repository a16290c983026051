/** Conditions against a relation: which columns are exposed, the type rules, and OR groups in
    the or=(...) form; what is accepted names exposed columns only. */
module Parser {
  import opened Wrappers
  import opened Sql
  import opened Catalog
  import opened Grammar
  import opened Filters

  function Lookup(columns: seq<Column>, name: string): Option<Column> {
    if columns == [] then None else if columns[0].name == name then Some(columns[0]) else Lookup(columns[1..], name)
  }

  function ExposedColumn(rel: Relation, name: string): Result<Column, Problem> {
    match Lookup(rel.columns, name)
    case None => Err(UnknownColumn)
    case Some(c) => if c.denied then Err(DeniedColumn) else Ok(c)
  }

  /** The type rules, if one is broken. */
  function CheckCond(c: Cond, column: Column, o: Options): Option<Problem> {
    if (c.op == Compare(Like) || c.op == Compare(ILike)) && !column.textLike then Some(TextOnly)
    else if c.op.In? && |c.values| > o.maxInValues then Some(TooManyValues)
    else None
  }

  /** A condition a request may carry: on an exposed column, with a value list the operator
      takes, within the type and size rules. */
  predicate Accepted(c: Cond, rel: Relation, o: Options) {
    && ValidCond(c) && ExposedColumn(rel, c.col).Ok? && CheckCond(c, ExposedColumn(rel, c.col).value, o).None?
  }

  predicate AllAccepted(conds: seq<Cond>, rel: Relation, o: Options) {
    forall k :: 0 <= k < |conds| ==> Accepted(conds[k], rel, o)
  }

  lemma {:induction false} LookupFinds(columns: seq<Column>, name: string)
    ensures Lookup(columns, name).Some? ==>
              Lookup(columns, name).value in columns && Lookup(columns, name).value.name == name
    ensures Lookup(columns, name).None? ==> forall k :: 0 <= k < |columns| ==> columns[k].name != name
  {
    if columns != [] { LookupFinds(columns[1..], name); }
  }

  /** A column is exposed exactly if the relation has it and does not deny it. */
  lemma ExposedIsExposed(rel: Relation, name: string)
    requires DistinctNames(rel.columns)
    ensures ExposedColumn(rel, name).Ok? <==> Exposed(rel, name)
  {
    LookupFinds(rel.columns, name);
    if Exposed(rel, name) {
      var k :| 0 <= k < |rel.columns| && rel.columns[k].name == name && !rel.columns[k].denied;
      var c := Lookup(rel.columns, name).value;
      var j :| 0 <= j < |rel.columns| && rel.columns[j] == c;
      assert rel.columns[j].name == rel.columns[k].name;
    }
  }

  function Named(r: Result<Cond, Problem>, col: string, column: Column, o: Options): Result<Cond, Problem> {
    match r
    case Err(p) => Err(p)
    case Ok(c) =>
      var c' := c.(col := col);
      if CheckCond(c', column, o).Some? then Err(CheckCond(c', column, o).value) else Ok(c')
  }

  // ---------------------------------------------------------------- OR groups

  function ParseTerm(term: string, rel: Relation, o: Options): Result<Cond, Problem> {
    match Cut(term, '.')
    case None => Err(NotATerm)
    case Some(cut) =>
      if cut.0 == "" then Err(NotATerm)
      else
        match ExposedColumn(rel, cut.0)
        case Err(p) => Err(p)
        case Ok(column) => Named(ParseFilter(cut.1, false), cut.0, column, o)
  }

  /** One term of a group; a blank one is nothing. */
  function ReadTerm(term: string, rel: Relation, o: Options): Option<Result<Cond, Problem>> {
    if Trim(term) == "" then None else Some(ParseTerm(Trim(term), rel, o))
  }

  type Reader = string -> Option<Result<Cond, Problem>>

  /** The conditions of the first k terms; blank terms are skipped, the first bad one decides. */
  function ParsedTerms(terms: seq<string>, k: nat, read: Reader): Result<seq<Cond>, Problem>
    requires k <= |terms|
  {
    if k == 0 then Ok([])
    else
      match ParsedTerms(terms, k - 1, read)
      case Err(p) => Err(p)
      case Ok(conds) =>
        match read(terms[k - 1])
        case None => Ok(conds)
        case Some(Err(p)) => Err(p)
        case Some(Ok(c)) => Ok(conds + [c])
  }

  function ParsedGroup(raw: string, rel: Relation, o: Options): Result<seq<Cond>, Problem> {
    if !HasPrefix(raw, "(") || !HasSuffix(raw, ")") || |raw| < 2 then Err(NotParenthesised)
    else
      var terms := SplitFrom(raw[1..|raw| - 1], 0);
      match ParsedTerms(terms, |terms|, t => ReadTerm(t, rel, o))
      case Err(p) => Err(p)
      case Ok(conds) => if conds == [] then Err(EmptyGroup) else Ok(conds)
  }

  lemma {:induction false} FirstErrorStays(terms: seq<string>, i: nat, k: nat, read: Reader)
    requires i <= k <= |terms| && ParsedTerms(terms, i, read).Err?
    ensures ParsedTerms(terms, k, read) == ParsedTerms(terms, i, read)
  {
    if i < k { FirstErrorStays(terms, i, k - 1, read); }
  }

  lemma NotOneCharacter(raw: string)
    requires HasPrefix(raw, "(") && HasSuffix(raw, ")")
    ensures |raw| >= 2
  {
    assert raw[0] == '(' && raw[|raw| - 1..][0] == ')';
  }

  method ParseOrGroup(raw: string, rel: Relation, o: Options) returns (r: Result<seq<Cond>, Problem>)
    ensures r == ParsedGroup(raw, rel, o)
    ensures r.Ok? ==> r.value != [] && AllAccepted(r.value, rel, o)
  {
    if !HasPrefix(raw, "(") || !HasSuffix(raw, ")") { return Err(NotParenthesised); }
    NotOneCharacter(raw);
    var terms := SplitTopLevel(raw[1..|raw| - 1]);
    r := ParseTerms(terms, t => ReadTerm(t, rel, o));
    TermsAreAccepted(terms, |terms|, rel, o);
    if r == Ok([]) { return Err(EmptyGroup); }
  }

  method ParseTerms(terms: seq<string>, read: Reader) returns (r: Result<seq<Cond>, Problem>)
    ensures r == ParsedTerms(terms, |terms|, read)
  {
    var group: seq<Cond> := [];
    for i := 0 to |terms|
      invariant ParsedTerms(terms, i, read) == Ok(group)
    {
      var c := read(terms[i]);
      if c.Some? {
        if c.value.Err? {
          FirstErrorStays(terms, i + 1, |terms|, read);
          return Err(c.value.error);
        }
        group := group + [c.value.value];
      }
    }
    return Ok(group);
  }

  lemma {:induction false} ParsedAreGood(terms: seq<string>, k: nat, read: Reader, good: Cond -> bool)
    requires k <= |terms| && forall t :: read(t).Some? && read(t).value.Ok? ==> good(read(t).value.value)
    ensures ParsedTerms(terms, k, read).Ok? ==>
              forall i :: 0 <= i < |ParsedTerms(terms, k, read).value| ==> good(ParsedTerms(terms, k, read).value[i])
  {
    if k > 0 { ParsedAreGood(terms, k - 1, read, good); }
  }

  lemma TermsAreAccepted(terms: seq<string>, k: nat, rel: Relation, o: Options)
    requires k <= |terms|
    ensures var r := ParsedTerms(terms, k, t => ReadTerm(t, rel, o)); r.Ok? ==> AllAccepted(r.value, rel, o)
  {
    var read: Reader := t => ReadTerm(t, rel, o);
    var good := c => Accepted(c, rel, o);
    ParsedAreGood(terms, k, read, good);
  }

  // ---------------------------------------------------------------- printing a group

  function TermText(c: Cond): string
    requires ValidCond(c)
  {
    c.col + "." + Print(c.(col := ""))
  }

  function TermTexts(conds: seq<Cond>, k: nat): (r: seq<string>)
    requires k <= |conds| && ValidConds(conds)
    ensures |r| == k && forall i :: 0 <= i < k ==> r[i] == TermText(conds[i])
  {
    if k == 0 then [] else TermTexts(conds, k - 1) + [TermText(conds[k - 1])]
  }

  /** or=(...) */
  function PrintGroup(conds: seq<Cond>): string
    requires ValidConds(conds)
  {
    "(" + JoinAll(TermTexts(conds, |conds|)) + ")"
  }

  predicate PlainText(s: string) { Lacks(s, ',') && Lacks(s, '(') && Lacks(s, ')') && Trimmed(s) }

  /** Values without commas, parentheses or surrounding spaces, on a plainly named column. */
  predicate PlainCond(c: Cond) {
    && ValidCond(c) && (c.notNull ==> c.op.Is?) && c.col != "" && PlainText(c.col) && Lacks(c.col, '.')
    && (forall k :: 0 <= k < |c.values| ==> PlainText(c.values[k])) && (c.op.In? ==> c.values != [""])
  }

  lemma {:induction false} DepthAppend(a: string, b: string, depth: nat)
    ensures DepthOver(a + b, depth) == DepthOver(b, DepthOver(a, depth))
    ensures Whole(a + b, depth) <==> Whole(a, depth) && Whole(b, DepthOver(a, depth))
  {
    if a == "" {
      assert a + b == b;
    } else {
      assert (a + b)[1..] == a[1..] + b;
      DepthAppend(a[1..], b, DepthAfter(a[0], depth));
    }
  }

  lemma {:induction false} WithoutParentheses(s: string, depth: nat)
    requires Lacks(s, '(') && Lacks(s, ')') && (depth > 0 || Lacks(s, ','))
    ensures DepthOver(s, depth) == depth && Whole(s, depth)
  {
    if s != "" {
      assert forall k :: 0 <= k < |s| - 1 ==> s[1..][k] == s[k + 1];
      WithoutParentheses(s[1..], depth);
    }
  }

  lemma {:induction false} JoinLacks(values: seq<string>, c: char)
    requires c != ',' && forall k :: 0 <= k < |values| ==> Lacks(values[k], c)
    ensures Lacks(JoinAll(values), c)
  {
    if |values| > 1 {
      JoinLacks(values[1..], c);
      var a, b := values[0], JoinAll(values[1..]);
      assert forall k :: 0 <= k < |a + "," + b| ==>
          (a + "," + b)[k] == if k < |a| then a[k] else if k == |a| then ',' else b[k - |a| - 1];
    }
  }

  /** The text of a plain term closes what it opens and holds no comma outside parentheses. */
  lemma TermIsClosed(c: Cond)
    requires PlainCond(c)
    ensures Whole(TermText(c), 0) && DepthOver(TermText(c), 0) == 0
  {
    WithoutParentheses(c.col, 0);
    DepthAppend(c.col, ".", 0);
    DepthAppend(c.col + ".", Print(c.(col := "")), 0);
    WithoutParentheses(".", 0);
    FilterIsClosed(c.(col := ""));
  }

  lemma FilterIsClosed(c: Cond)
    requires ValidCond(c) && forall k :: 0 <= k < |c.values| ==> PlainText(c.values[k])
    ensures Whole(Print(c), 0) && DepthOver(Print(c), 0) == 0
  {
    match c.op
    case Is =>
      WithoutParentheses(Print(c), 0);
    case Compare(op) =>
      WithoutParentheses(OpName(op) + ".", 0);
      WithoutParentheses(c.values[0], 0);
      DepthAppend(OpName(op) + ".", c.values[0], 0);
    case In =>
      var inner := JoinAll(c.values);
      JoinLacks(c.values, '(');
      JoinLacks(c.values, ')');
      WithoutParentheses("in.", 0);
      DepthAppend("in.", "(", 0);
      assert "in." + "(" == "in.(" && DepthOver("(", 0) == 1 && Whole("(", 0);
      WithoutParentheses(inner, 1);
      DepthAppend("in.(", inner, 0);
      DepthAppend("in.(" + inner, ")", 0);
      assert DepthOver(")", 1) == 0 && Whole(")", 1);
  }

  lemma TermIsTrimmed(c: Cond)
    requires PlainCond(c)
    ensures TermText(c) != "" && Trim(TermText(c)) == TermText(c)
  {
    var f, t := Print(c.(col := "")), TermText(c);
    TrimKeeps(t);
    assert t[0] == c.col[0] && t[|t| - 1] == f[|f| - 1];
    match c.op
    case Is =>
    case In => assert f[|f| - 1] == ')';
    case Compare(op) =>
      var v := c.values[0];
      if v == "" { assert f[|f| - 1] == '.'; } else { assert f[|f| - 1] == v[|v| - 1]; }
  }

  lemma TermRoundTrip(c: Cond, rel: Relation, o: Options)
    requires PlainCond(c) && Accepted(c, rel, o)
    ensures ParseTerm(TermText(c), rel, o) == Ok(c)
  {
    var bare := c.(col := "");
    CutAt(c.col, '.', Print(bare));
    FilterRoundTrip(bare, false);
    assert bare.(col := c.col) == c;
  }

  predicate AllPlain(conds: seq<Cond>, rel: Relation, o: Options) {
    forall k :: 0 <= k < |conds| ==> PlainCond(conds[k]) && Accepted(conds[k], rel, o)
  }

  predicate TermsRead(terms: seq<string>, conds: seq<Cond>, k: nat, read: Reader)
    requires k <= |terms| == |conds|
  {
    k == 0 || (TermsRead(terms, conds, k - 1, read) && read(terms[k - 1]) == Some(Ok(conds[k - 1])))
  }

  lemma PlainTermReads(term: string, c: Cond, rel: Relation, o: Options)
    requires PlainCond(c) && Accepted(c, rel, o) && term == TermText(c)
    ensures ReadTerm(term, rel, o) == Some(Ok(c))
  {
    TermIsTrimmed(c);
    TermRoundTrip(c, rel, o);
  }

  /** Each text is the printed form of its plain condition. */
  ghost predicate Texts(terms: seq<string>, conds: seq<Cond>, rel: Relation, o: Options) {
    |terms| == |conds| && forall k :: 0 <= k < |conds| ==>
      PlainCond(conds[k]) && Accepted(conds[k], rel, o) && terms[k] == TermText(conds[k])
  }

  lemma PlainTermsRead(terms: seq<string>, conds: seq<Cond>, read: Reader, rel: Relation, o: Options)
    requires Texts(terms, conds, rel, o) && forall t :: read(t) == ReadTerm(t, rel, o)
    ensures TermsRead(terms, conds, |terms|, read)
  {
    forall k | 0 <= k < |terms| ensures read(terms[k]) == Some(Ok(conds[k])) {
      PlainTermReads(terms[k], conds[k], rel, o);
    }
    EachTermReads(terms, conds, |terms|, read);
  }

  lemma {:induction false} EachTermReads(terms: seq<string>, conds: seq<Cond>, k: nat, read: Reader)
    requires k <= |terms| == |conds| && forall i :: 0 <= i < |terms| ==> read(terms[i]) == Some(Ok(conds[i]))
    ensures TermsRead(terms, conds, k, read)
  {
    if k > 0 { EachTermReads(terms, conds, k - 1, read); }
  }

  lemma {:induction false} ReadTermsParse(terms: seq<string>, conds: seq<Cond>, k: nat, read: Reader)
    requires k <= |terms| == |conds| && TermsRead(terms, conds, k, read)
    ensures ParsedTerms(terms, k, read) == Ok(conds[..k])
  {
    if k > 0 {
      ReadTermsParse(terms, conds, k - 1, read);
      assert conds[..k] == conds[..k - 1] + [conds[k - 1]];
    }
  }

  lemma {:induction false} ClosedTermsSeparate(terms: seq<string>)
    requires terms != [] && forall k :: 0 <= k < |terms| ==> Whole(terms[k], 0) && DepthOver(terms[k], 0) == 0
    ensures Separable(terms)
  {
    if |terms| > 1 { ClosedTermsSeparate(terms[1..]); }
  }

  lemma GroupSplits(conds: seq<Cond>, rel: Relation, o: Options)
    requires conds != [] && ValidConds(conds) && AllPlain(conds, rel, o)
    ensures SplitFrom(JoinAll(TermTexts(conds, |conds|)), 0) == TermTexts(conds, |conds|)
  {
    var terms := TermTexts(conds, |conds|);
    forall k | 0 <= k < |terms| ensures Whole(terms[k], 0) && DepthOver(terms[k], 0) == 0 {
      assert PlainCond(conds[k]) && terms[k] == TermText(conds[k]);
      TermIsClosed(conds[k]);
    }
    ClosedTermsSeparate(terms);
    SplitUndoesJoin(terms);
  }

  lemma Parenthesised(s: string)
    ensures var raw := "(" + s + ")"; HasPrefix(raw, "(") && HasSuffix(raw, ")") && |raw| >= 2 && raw[1..|raw| - 1] == s
  {
    var raw := "(" + s + ")";
    assert raw[..1] == "(" && raw[|raw| - 1..] == ")";
  }

  /** Any list of accepted conditions, in-lists included, printed as or=(...) parses back to
      itself when its values hold no commas, parentheses or surrounding spaces. */
  lemma GroupRoundTrip(conds: seq<Cond>, rel: Relation, o: Options)
    requires conds != [] && ValidConds(conds) && AllPlain(conds, rel, o)
    ensures ParsedGroup(PrintGroup(conds), rel, o) == Ok(conds)
  {
    var terms := TermTexts(conds, |conds|);
    Parenthesised(JoinAll(terms));
    GroupSplits(conds, rel, o);
    var read: Reader := t => ReadTerm(t, rel, o);
    PlainTermsRead(terms, conds, read, rel, o);
    ReadTermsParse(terms, conds, |conds|, read);
    assert conds[..|conds|] == conds;
  }
}
